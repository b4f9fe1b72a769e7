/** The sidebar's editing of the visible-archetype list and its sort-key
    indicator (src/components/AppSidebar.tsx). Every edit produces a new list
    that the sidebar hands to its parent. */
module Sidebar {
  import opened Wrappers
  import opened Seqs
  import opened SortEngine

  /** `handleCheckboxChange(deckname, checked)`: checking appends the name
      at the end, without looking for an earlier copy; unchecking removes
      every copy and keeps the rest in order. */
  function CheckboxChange(visible: seq<string>, name: string, checked: bool): (r: seq<string>)
    ensures checked ==> |r| == |visible| + 1 && r[..|visible|] == visible && r[|visible|] == name
    ensures !checked ==> name !in r && Subseq(r, visible)
    ensures !checked ==> forall x :: x != name ==> multiset(r)[x] == multiset(visible)[x]
  {
    if checked then visible + [name]
    else
      var keep := (arch: string) => arch != name;
      FilterIsSubseq(visible, keep);
      assert forall x :: x != name ==> multiset(Filter(visible, keep))[x] == multiset(visible)[x] by {
        forall x | x != name ensures multiset(Filter(visible, keep))[x] == multiset(visible)[x] {
          FilterMultiset(visible, keep, x);
        }
      }
      Filter(visible, keep)
  }

  /** Unchecking undoes checking: what remains is as if the name had only been unchecked,
      and a name that was not visible leaves the list exactly as it was. */
  lemma CheckThenUncheck(visible: seq<string>, name: string)
    ensures CheckboxChange(CheckboxChange(visible, name, true), name, false) == CheckboxChange(visible, name, false)
    ensures name !in visible ==> CheckboxChange(CheckboxChange(visible, name, true), name, false) == visible
  {
    var keep := (arch: string) => arch != name;
    FilterAppend(visible, [name], keep);
    assert Filter([name], keep) == [];
    if name !in visible {
      FilterAll(visible, keep);
    }
  }

  /** Unchecking twice is unchecking once. */
  lemma UncheckIdempotent(visible: seq<string>, name: string)
    ensures CheckboxChange(CheckboxChange(visible, name, false), name, false) == CheckboxChange(visible, name, false)
  {
    var once := CheckboxChange(visible, name, false);
    FilterAll(once, (arch: string) => arch != name);
  }

  /** `handleSelectAll(checked)`: a copy of the full list, or nothing. */
  function SelectAll(archetypes: seq<string>, checked: bool): (r: seq<string>)
    ensures checked ==> r == archetypes && AllSelected(archetypes, r)
    ensures !checked ==> r == [] && (AllSelected(archetypes, r) <==> archetypes == [])
  {
    if checked then archetypes else []
  }

  /** `allSelected`: the two lists have the same length. Membership is not compared. */
  predicate AllSelected(archetypes: seq<string>, visible: seq<string>) {
    |archetypes| == |visible|
  }

  /** The length test can report "all selected" while an archetype is hidden. */
  lemma AllSelectedIgnoresMembership()
    ensures AllSelected(["a", "b"], ["a", "a"]) && "b" !in ["a", "a"]
  {
  }

  /** When neither list repeats a name and every visible name is a listed
      archetype, equal lengths mean exactly that every archetype is visible. */
  lemma AllSelectedMeansEveryArchetype(archetypes: seq<string>, visible: seq<string>)
    requires Distinct(archetypes) && Distinct(visible)
    requires forall i :: 0 <= i < |visible| ==> visible[i] in archetypes
    ensures AllSelected(archetypes, visible) <==> forall i :: 0 <= i < |archetypes| ==> archetypes[i] in visible
  {
    DistinctCard(archetypes);
    DistinctCard(visible);
    var a := Elements(archetypes);
    var v := Elements(visible);
    assert v <= a;
    if AllSelected(archetypes, visible) {
      assert |a - v| == |a| - |v| == 0;
      assert a - v == {};
      forall i | 0 <= i < |archetypes| ensures archetypes[i] in visible {
        assert archetypes[i] in a;
      }
    }
    if forall i :: 0 <= i < |archetypes| ==> archetypes[i] in visible {
      assert a <= v;
      assert a == v;
    }
  }

  datatype Icon = ArrowUp | ArrowDown

  /** `getSortIcon(method)`: only the active key shows an arrow, up when
      ascending and down when descending. */
  function SortIcon(s: SortState, key: Method): (r: Option<Icon>)
    ensures r.Some? <==> key == s.key
    ensures r == Some(ArrowUp) <==> key == s.key && s.direction == Asc
    ensures r == Some(ArrowDown) <==> key == s.key && s.direction == Desc
  {
    if key != s.key then None
    else if s.direction == Asc then Some(ArrowUp)
    else assert s.direction == Desc; Some(ArrowDown)
  }

  /** After choosing a key, exactly that key carries an arrow, and choosing
      it again turns the arrow over. */
  lemma IconFollowsChoice(s: SortState, chosen: Method, other: Method)
    requires other != chosen
    ensures SortIcon(NextSortState(s, chosen), chosen).Some?
    ensures SortIcon(NextSortState(s, chosen), other) == None
    ensures SortIcon(NextSortState(NextSortState(s, chosen), chosen), chosen)
            != SortIcon(NextSortState(s, chosen), chosen)
  {
  }
}
