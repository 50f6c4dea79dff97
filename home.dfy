/**
 * The category chips of the Home screen (screens/Home.js): a fixed list of
 * categories, and the selection the chips toggle. The selection is a list
 * used as a set: toggling a category that is selected removes it, toggling
 * one that is not appends it at the end. The selection and the search text
 * are what the screen hands to the menu store's filter query.
 */
module HomeScreen {
  import MenuDatabase

  /** The category chips, in display order. */
  const Categories: seq<string> := ["Starters", "Mains", "Desserts", "Drinks"]

  /** No entry occurs twice. */
  predicate Distinct(s: seq<string>) {
    forall i, j | 0 <= i < j < |s| :: s[i] != s[j]
  }

  /** `s.filter(x => x !== c)`: every occurrence of `c` dropped, the rest kept in order. */
  function Without(s: seq<string>, c: string): (r: seq<string>)
    ensures forall x :: x in r <==> x in s && x != c
    ensures |r| <= |s|
    ensures c in s ==> |r| < |s|
  {
    if s == [] then [] else (if s[0] == c then [] else [s[0]]) + Without(s[1..], c)
  }

  /** toggleCategory: remove a selected category, append one that is not selected. */
  function Toggle(selected: seq<string>, c: string): seq<string> {
    if c in selected then Without(selected, c) else selected + [c]
  }

  /** The selection after the chips `taps` are pressed, in order, starting from `selected`. */
  function ApplyToggles(selected: seq<string>, taps: seq<string>): seq<string>
    decreases |taps|
  {
    if taps == [] then selected else ApplyToggles(Toggle(selected, taps[0]), taps[1..])
  }

  lemma {:induction false} WithoutAppend(a: seq<string>, b: seq<string>, c: string)
    ensures Without(a + b, c) == Without(a, c) + Without(b, c)
  {
    if a == [] {
      assert a + b == b;
    } else {
      assert (a + b)[1..] == a[1..] + b;
      WithoutAppend(a[1..], b, c);
    }
  }

  /** Filtering out a value that does not occur changes nothing. */
  lemma {:induction false} WithoutAbsent(s: seq<string>, c: string)
    requires c !in s
    ensures Without(s, c) == s
  {
    if s != [] {
      WithoutAbsent(s[1..], c);
    }
  }

  lemma {:induction false} WithoutKeepsDistinct(s: seq<string>, c: string)
    requires Distinct(s)
    ensures Distinct(Without(s, c))
  {
    if s != [] {
      assert Distinct(s[1..]);
      WithoutKeepsDistinct(s[1..], c);
      assert s[0] !in s[1..];
    }
  }

  /** A category that is not selected is appended at the end; the others stay as they were. */
  lemma ToggleAbsentAppends(selected: seq<string>, c: string)
    requires c !in selected
    ensures Toggle(selected, c) == selected + [c]
    ensures Toggle(selected, c)[..|selected|] == selected
  {
  }

  /** A category that is selected is removed, every occurrence of it. */
  lemma TogglePresentRemoves(selected: seq<string>, c: string)
    requires c in selected
    ensures c !in Toggle(selected, c)
    ensures forall x | x != c :: x in Toggle(selected, c) <==> x in selected
  {
  }

  /** After a toggle, `c` is selected exactly when it was not selected before; nothing else changes membership. */
  lemma ToggleFlipsMembership(selected: seq<string>, c: string, x: string)
    ensures x in Toggle(selected, c) <==> (if x == c then c !in selected else x in selected)
  {
  }

  /** The entries a toggle does not touch keep their relative order. */
  lemma ToggleKeepsOrderOfOthers(selected: seq<string>, c: string)
    ensures Without(Toggle(selected, c), c) == Without(selected, c)
  {
    if c in selected {
      WithoutAbsent(Without(selected, c), c);
    } else {
      WithoutAppend(selected, [c], c);
      assert Without([c], c) == [];
    }
  }

  /** Toggling a category that is not selected twice restores the selection. */
  lemma ToggleTwiceRestores(selected: seq<string>, c: string)
    requires c !in selected
    ensures Toggle(Toggle(selected, c), c) == selected
  {
    WithoutAppend(selected, [c], c);
    assert Without([c], c) == [];
    WithoutAbsent(selected, c);
  }

  /** A toggle never introduces a duplicate. */
  lemma ToggleKeepsDistinct(selected: seq<string>, c: string)
    requires Distinct(selected)
    ensures Distinct(Toggle(selected, c))
  {
    if c in selected {
      WithoutKeepsDistinct(selected, c);
    }
  }

  /** Starting from no selection, any sequence of toggles yields a selection without duplicates. */
  lemma {:induction false} TogglesStayDistinct(selected: seq<string>, taps: seq<string>)
    requires Distinct(selected)
    ensures Distinct(ApplyToggles(selected, taps))
    decreases |taps|
  {
    if taps != [] {
      ToggleKeepsDistinct(selected, taps[0]);
      TogglesStayDistinct(Toggle(selected, taps[0]), taps[1..]);
    }
  }

  /** A selection only ever holds values that were tapped or already selected. */
  lemma {:induction false} TogglesStayWithin(selected: seq<string>, taps: seq<string>, allowed: seq<string>)
    requires forall x | x in selected :: x in allowed
    requires forall t | t in taps :: t in allowed
    ensures forall x | x in ApplyToggles(selected, taps) :: x in allowed
    decreases |taps|
  {
    if taps != [] {
      TogglesStayWithin(Toggle(selected, taps[0]), taps[1..], allowed);
    }
  }

  /** A list without duplicates drawn from `t` is no longer than `t`. */
  lemma {:induction false} DistinctWithinIsShorter(s: seq<string>, t: seq<string>)
    requires Distinct(s)
    requires forall x | x in s :: x in t
    ensures |s| <= |t|
  {
    if s != [] {
      var rest := Without(t, s[0]);
      assert Distinct(s[1..]);
      forall x | x in s[1..] ensures x in rest {
        assert x != s[0];
      }
      DistinctWithinIsShorter(s[1..], rest);
    }
  }

  /**
   * Pressing only the chips on screen, the selection holds categories from
   * the fixed list, each at most once, and so at most four of them.
   */
  lemma SelectionFromChips(taps: seq<string>)
    requires forall t | t in taps :: t in Categories
    ensures var selected := ApplyToggles([], taps);
      && Distinct(selected)
      && (forall x | x in selected :: x in Categories)
      && |selected| <= |Categories|
  {
    var selected := ApplyToggles([], taps);
    TogglesStayDistinct([], taps);
    TogglesStayWithin([], taps, Categories);
    DistinctWithinIsShorter(selected, Categories);
  }

  /**
   * The filter query the Home screen issues for a selection reached by
   * pressing chips has at most four category placeholders and one search
   * placeholder, and carries no duplicate category.
   */
  lemma HomeFilterParams(taps: seq<string>, searchQuery: string)
    requires forall t | t in taps :: t in Categories
    ensures var selected := ApplyToggles([], taps);
      && |MenuDatabase.FilterParams(selected, searchQuery)| <= |Categories| + 1
      && Distinct(MenuDatabase.FilterParams(selected, searchQuery)[..|selected|])
  {
    SelectionFromChips(taps);
    var selected := ApplyToggles([], taps);
    MenuDatabase.FilterParamsLayout(selected, searchQuery);
  }
}
