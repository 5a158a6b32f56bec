/**
 * The persona list and its selection. Removing a persona removes its first
 * equal entry; when the removed persona had the selected one's id and some
 * persona is left, the first remaining persona becomes the selection.
 * Nothing stops the list from becoming empty, in which case the selection
 * keeps pointing at the persona that was removed.
 */
module Personas {
  import opened ChatModel

  /** The position of the first occurrence of `x`. */
  function FirstIndex<T(==)>(s: seq<T>, x: T): (i: nat)
    requires x in s
    ensures i < |s| && s[i] == x
    ensures forall j :: 0 <= j < i ==> s[j] != x
  {
    if s[0] == x then 0 else 1 + FirstIndex(s[1..], x)
  }

  /**
   * `MutableList.remove(x)`: drops the first element equal to `x` and keeps
   * the order of the rest; a list without `x` stays as it is.
   */
  function RemoveFirst<T(==)>(s: seq<T>, x: T): (r: seq<T>)
    ensures x !in s ==> r == s
    ensures x in s ==> r == s[..FirstIndex(s, x)] + s[FirstIndex(s, x) + 1..]
    ensures |r| == if x in s then |s| - 1 else |s|
    ensures multiset(r) == multiset(s) - multiset{x}
  {
    if x in s then
      var i := FirstIndex(s, x);
      assert s == s[..i] + [x] + s[i + 1..];
      s[..i] + s[i + 1..]
    else
      s
  }

  /** The persona list together with the selected persona. */
  datatype Selection = Selection(personas: seq<SystemPrompt>, selected: SystemPrompt)

  /**
   * The persona state after deleting `p`. The selection moves only when it
   * shared `p`'s id, and then to the first remaining persona; a selection
   * that was in the list stays in it as long as the list is not empty.
   */
  function AfterDelete(s: Selection, p: SystemPrompt): (r: Selection)
    ensures r.personas == RemoveFirst(s.personas, p)
    ensures r.selected != s.selected ==>
      s.selected.id == p.id && r.personas != [] && r.selected == r.personas[0]
    ensures s.selected.id == p.id && r.personas != [] ==> r.selected == r.personas[0]
    ensures !(s.selected.id == p.id && r.personas != []) ==> r.selected == s.selected
    ensures s.selected in s.personas && r.personas != [] ==> r.selected in r.personas
  {
    var rest := RemoveFirst(s.personas, p);
    if s.selected.id == p.id && |rest| > 0 then Selection(rest, rest[0])
    else
      assert s.selected != p ==> multiset(rest)[s.selected] == multiset(s.personas)[s.selected];
      Selection(rest, s.selected)
  }

  /**
   * Deleting the selected persona while others remain selects the first
   * of those.
   */
  lemma DeleteSelectedFallsBack(s: Selection)
    requires |s.personas| >= 2 && s.personas[0] == s.selected
    ensures var r := AfterDelete(s, s.selected);
      r.personas == s.personas[1..] && r.selected == s.personas[1]
  {
  }

  /**
   * Deleting the only persona empties the list and leaves the selection on
   * the persona that is gone.
   */
  lemma DeleteLastPersona(p: SystemPrompt)
    ensures var r := AfterDelete(Selection([p], p), p);
      r.personas == [] && r.selected == p && r.selected !in r.personas
  {
  }

  /**
   * Deleting a persona right after adding it gives the list back, but not
   * the earlier selection: the first persona is selected instead.
   */
  lemma DeleteUndoesAdd(s: Selection, p: SystemPrompt)
    requires p !in s.personas
    ensures var r := AfterDelete(Selection(s.personas + [p], p), p);
      && r.personas == s.personas
      && (s.personas != [] ==> r.selected == s.personas[0])
      && (s.personas == [] ==> r.selected == p)
  {
    var added := s.personas + [p];
    var i := FirstIndex(added, p);
    assert i == |s.personas|;
    assert added[..i] == s.personas;
  }
}
