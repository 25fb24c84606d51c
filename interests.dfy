/**
 * The onboarding screen where a new user picks topics: a fixed catalogue of
 * nine categories, a selection list that each card press toggles, and a
 * "Next" button that needs at least three picks.
 */
module Interests {
  import opened Wrappers
  import opened Navigation
  import AuthStore

  /** A catalogue entry; colour and image are presentation only. */
  datatype Category = Category(id: string, title: string)

  const InterestCategories: seq<Category> := [
    Category("technology", "Technology"),
    Category("health", "Health"),
    Category("business", "Business"),
    Category("science", "Science"),
    Category("environment", "Environment"),
    Category("finance", "Finance"),
    Category("education", "Education"),
    Category("local-news", "Local News"),
    Category("politics", "Politics")
  ]

  /** Fewest selections the "Next" button accepts. */
  const MinSelections := 3

  /** The catalogue's ids, in grid order. */
  function CatalogueIdList(): (ids: seq<string>)
    ensures |ids| == |InterestCategories|
    ensures forall k :: 0 <= k < |ids| ==> ids[k] == InterestCategories[k].id
  {
    seq(|InterestCategories|, k requires 0 <= k < |InterestCategories| => InterestCategories[k].id)
  }

  function CatalogueIds(): set<string> {
    Elements(CatalogueIdList())
  }

  function Elements(s: seq<string>): set<string> {
    set y | y in s
  }

  predicate NoDup(s: seq<string>) {
    forall i, j :: 0 <= i < j < |s| ==> s[i] != s[j]
  }

  /** A selection the screen can hold: distinct catalogue ids. */
  predicate Selectable(s: seq<string>) {
    NoDup(s) && forall id :: id in s ==> id in CatalogueIds()
  }

  /** `prev.filter(id => id !== x)`: every occurrence of `x` dropped, the rest in order. */
  function Without(s: seq<string>, x: string): (r: seq<string>)
    ensures forall y :: y in r <==> y in s && y != x
    ensures |r| <= |s|
  {
    if s == [] then []
    else (if s[0] == x then [] else [s[0]]) + Without(s[1..], x)
  }

  /** The selection after pressing the card of `x`: removed if present, else appended. */
  function Toggled(s: seq<string>, x: string): (r: seq<string>)
    ensures x in r <==> x !in s
    ensures forall y :: y != x ==> (y in r <==> y in s)
  {
    if x in s then Without(s, x) else s + [x]
  }

  lemma {:induction false} WithoutAbsent(s: seq<string>, x: string)
    requires x !in s
    ensures Without(s, x) == s
  {
    if s != [] {
      WithoutAbsent(s[1..], x);
      assert s == [s[0]] + s[1..];
    }
  }

  lemma {:induction false} WithoutConcat(s: seq<string>, t: seq<string>, x: string)
    ensures Without(s + t, x) == Without(s, x) + Without(t, x)
  {
    if s == [] {
      assert s + t == t;
    } else {
      assert (s + t)[1..] == s[1..] + t;
      WithoutConcat(s[1..], t, x);
    }
  }

  /** In a list without duplicates, filtering out `s[i]` removes exactly position `i`. */
  lemma {:induction false} WithoutAt(s: seq<string>, i: nat)
    requires NoDup(s) && i < |s|
    ensures Without(s, s[i]) == s[..i] + s[i + 1..]
  {
    var x := s[i];
    if i == 0 {
      assert x !in s[1..] by {
        forall k | 0 <= k < |s[1..]| ensures s[1..][k] != x {
          assert s[1..][k] == s[k + 1];
        }
      }
      WithoutAbsent(s[1..], x);
    } else {
      assert s[0] != x;
      assert NoDup(s[1..]) by {
        forall a, b | 0 <= a < b < |s[1..]| ensures s[1..][a] != s[1..][b] {
          assert s[1..][a] == s[a + 1] && s[1..][b] == s[b + 1];
        }
      }
      assert s[1..][i - 1] == x;
      WithoutAt(s[1..], i - 1);
      assert s[1..][..i - 1] + s[1..][i..] == s[1..i] + s[i + 1..];
      assert s[..i] == [s[0]] + s[1..i];
    }
  }

  lemma {:induction false} WithoutKeepsNoDup(s: seq<string>, x: string)
    requires NoDup(s)
    ensures NoDup(Without(s, x))
  {
    if s != [] {
      assert NoDup(s[1..]) by {
        forall a, b | 0 <= a < b < |s[1..]| ensures s[1..][a] != s[1..][b] {
          assert s[1..][a] == s[a + 1] && s[1..][b] == s[b + 1];
        }
      }
      WithoutKeepsNoDup(s[1..], x);
      var rest := Without(s[1..], x);
      assert s[0] !in s[1..] by {
        forall k | 0 <= k < |s[1..]| ensures s[1..][k] != s[0] {
          assert s[1..][k] == s[k + 1];
        }
      }
      assert s[0] !in rest;
    }
  }

  /**
   * Toggling keeps every other id in its relative order: a new id goes to the
   * end, a present one is cut out of its place.
   */
  lemma ToggledShape(s: seq<string>, x: string)
    requires NoDup(s)
    ensures x !in s ==> Toggled(s, x) == s + [x]
    ensures forall i :: 0 <= i < |s| && s[i] == x ==> Toggled(s, x) == s[..i] + s[i + 1..]
  {
    forall i | 0 <= i < |s| && s[i] == x
      ensures Toggled(s, x) == s[..i] + s[i + 1..]
    {
      WithoutAt(s, i);
    }
  }

  /** Toggling never introduces a duplicate. */
  lemma ToggledKeepsNoDup(s: seq<string>, x: string)
    requires NoDup(s)
    ensures NoDup(Toggled(s, x))
  {
    if x in s {
      WithoutKeepsNoDup(s, x);
    }
  }

  /** Pressing a card that is not selected twice gives back the same list. */
  lemma ToggleTwiceRestores(s: seq<string>, x: string)
    requires x !in s
    ensures Toggled(Toggled(s, x), x) == s
  {
    WithoutConcat(s, [x], x);
    WithoutAbsent(s, x);
    assert Without([x], x) == [];
  }

  /** Pressing a selected card twice moves it to the end of the selection. */
  lemma ToggleTwiceMovesToEnd(s: seq<string>, i: nat)
    requires NoDup(s) && i < |s|
    ensures Toggled(Toggled(s, s[i]), s[i]) == s[..i] + s[i + 1..] + [s[i]]
  {
    WithoutAt(s, i);
  }

  lemma {:induction false} NoDupElements(s: seq<string>)
    requires NoDup(s)
    ensures |Elements(s)| == |s|
  {
    if s != [] {
      var t := s[..|s| - 1];
      var last := s[|s| - 1];
      assert NoDup(t);
      NoDupElements(t);
      assert s == t + [last];
      assert Elements(s) == Elements(t) + {last};
      assert last !in Elements(t) by {
        forall k | 0 <= k < |t| ensures t[k] != last {
          assert t[k] == s[k];
        }
      }
    }
  }

  /** The catalogue ids are distinct: there are nine of them. */
  lemma CatalogueSize()
    ensures |CatalogueIds()| == |InterestCategories| == 9
  {
    var ids := CatalogueIdList();
    assert ids == ["technology", "health", "business", "science", "environment",
                   "finance", "education", "local-news", "politics"];
    assert NoDup(ids);
    NoDupElements(ids);
  }

  lemma {:induction false} SubsetSize(a: set<string>, b: set<string>)
    requires a <= b
    ensures |a| <= |b|
    decreases |a|
  {
    if a != {} {
      var x :| x in a;
      SubsetSize(a - {x}, b - {x});
    }
  }

  /** A selection the screen can hold has at most nine entries. */
  lemma SelectableBound(s: seq<string>)
    requires Selectable(s)
    ensures |s| <= |CatalogueIds()| == 9
  {
    NoDupElements(s);
    CatalogueSize();
    SubsetSize(Elements(s), CatalogueIds());
  }

  lemma ToggledSelectable(s: seq<string>, x: string)
    requires Selectable(s) && x in CatalogueIds()
    ensures Selectable(Toggled(s, x))
  {
    ToggledKeepsNoDup(s, x);
  }

  /** The selection after a run of card presses, from `s`. */
  function AfterPresses(s: seq<string>, presses: seq<nat>): (r: seq<string>)
    requires forall k :: 0 <= k < |presses| ==> presses[k] < |InterestCategories|
    ensures NoDup(s) ==> NoDup(r)
    decreases |presses|
  {
    if presses == [] then s
    else
      var next := Toggled(s, InterestCategories[presses[0]].id);
      if NoDup(s) then ToggledKeepsNoDup(s, InterestCategories[presses[0]].id); AfterPresses(next, presses[1..])
      else AfterPresses(next, presses[1..])
  }

  /** Whatever cards are pressed from the empty start, the selection stays distinct catalogue ids, at most nine. */
  lemma {:induction false} PressesStaySelectable(s: seq<string>, presses: seq<nat>)
    requires Selectable(s)
    requires forall k :: 0 <= k < |presses| ==> presses[k] < |InterestCategories|
    ensures Selectable(AfterPresses(s, presses))
    ensures |AfterPresses(s, presses)| <= 9
    decreases |presses|
  {
    if presses == [] {
      SelectableBound(s);
    } else {
      ToggledSelectable(s, InterestCategories[presses[0]].id);
      PressesStaySelectable(Toggled(s, InterestCategories[presses[0]].id), presses[1..]);
    }
  }

  /** Whether "Next" accepts a selection. */
  predicate NextEnabled(selected: seq<string>) {
    |selected| >= MinSelections
  }

  class InterestsScreen {
    var selectedInterests: seq<string>

    predicate Valid()
      reads this
    {
      NoDup(selectedInterests)
    }

    constructor ()
      ensures selectedInterests == [] && Valid() && Selectable(selectedInterests)
    {
      selectedInterests := [];
    }

    /** The "Next" button's disabled flag. */
    function NextDisabled(): (disabled: bool)
      reads this
      ensures disabled <==> |selectedInterests| < MinSelections
    {
      !NextEnabled(selectedInterests)
    }

    /**
     * `toggleInterest`. Any id keeps the selection duplicate-free; a catalogue
     * id also keeps it within the catalogue.
     */
    method ToggleInterest(interestId: string)
      requires Valid()
      modifies this
      ensures Valid()
      ensures selectedInterests == Toggled(old(selectedInterests), interestId)
      ensures old(Selectable(selectedInterests)) && interestId in CatalogueIds() ==> Selectable(selectedInterests)
    {
      var prev := selectedInterests;
      if interestId in prev {
        selectedInterests := Without(prev, interestId);
      } else {
        selectedInterests := prev + [interestId];
      }
      ToggledKeepsNoDup(prev, interestId);
      if Selectable(prev) && interestId in CatalogueIds() {
        ToggledSelectable(prev, interestId);
      }
    }

    /** A press on the card at position `index` of the catalogue grid. */
    method PressCard(index: nat)
      requires Valid() && index < |InterestCategories|
      modifies this
      ensures Valid()
      ensures selectedInterests == Toggled(old(selectedInterests), InterestCategories[index].id)
      ensures old(Selectable(selectedInterests)) ==> Selectable(selectedInterests)
    {
      ToggleInterest(InterestCategories[index].id);
    }

    /**
     * `handleNext`: below three picks nothing happens; otherwise the exact
     * selection goes to the store and the app moves to the tabs.
     */
    method HandleNext(store: AuthStore.Store) returns (nav: Option<Route>)
      requires store.Valid()
      modifies store
      ensures store.Valid()
      ensures nav.Some? <==> !NextDisabled()
      ensures NextDisabled() ==> store.State() == old(store.State())
      ensures !NextDisabled() ==> nav == Some(TabsRoute)
      ensures !NextDisabled() ==> store.State() == AuthStore.AfterSetInterests(old(store.State()), selectedInterests)
    {
      if |selectedInterests| < MinSelections {
        return None;
      }
      store.SetInterests(selectedInterests);
      return Some(TabsRoute);
    }
  }
}
