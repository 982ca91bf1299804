/**
 * components/mainComponents/publicar/escogerServicio.tsx: the service-type selector. The next
 * selection is a filter or a spread of the current one; the component stores it and hands the
 * same list to its callback.
 */
module ServiceTypeSelector {
  /** `s.filter(x => x !== id)`. */
  function Remove(s: seq<string>, id: string): (r: seq<string>)
    ensures forall x :: x in r <==> x in s && x != id
    ensures |r| <= |s|
  {
    if s == [] then []
    else (if s[0] == id then [] else [s[0]]) + Remove(s[1..], id)
  }

  /** The selection after `toggleSelection(id)`. */
  function Toggle(selected: seq<string>, id: string, allowMultiple: bool): (r: seq<string>)
    ensures allowMultiple && id in selected ==> id !in r && forall x :: x != id ==> (x in r <==> x in selected)
    ensures allowMultiple && id !in selected ==> r == selected + [id]
    ensures !allowMultiple ==> r == if id in selected then [] else [id]
    ensures id in r <==> id !in selected
  {
    if allowMultiple then
      (if id in selected then Remove(selected, id) else selected + [id])
    else
      (if id in selected then [] else [id])
  }

  predicate NoDuplicates(s: seq<string>) {
    forall i, j :: 0 <= i < j < |s| ==> s[i] != s[j]
  }

  /** Filtering keeps the other ids in their relative order: it distributes over concatenation. */
  lemma {:induction false} RemoveAppend(a: seq<string>, b: seq<string>, id: string)
    ensures Remove(a + b, id) == Remove(a, id) + Remove(b, id)
  {
    if a != [] {
      assert (a + b)[1..] == a[1..] + b;
      RemoveAppend(a[1..], b, id);
    } else {
      assert a + b == b;
    }
  }

  /** Filtering out an absent id leaves the list as it was. */
  lemma {:induction false} RemoveAbsent(s: seq<string>, id: string)
    requires id !in s
    ensures Remove(s, id) == s
  {
    if s != [] {
      RemoveAbsent(s[1..], id);
    }
  }

  /** A filtered list without duplicates stays without them. */
  lemma {:induction false} RemoveKeepsNoDuplicates(s: seq<string>, id: string)
    requires NoDuplicates(s)
    ensures NoDuplicates(Remove(s, id))
  {
    if s != [] {
      RemoveKeepsNoDuplicates(s[1..], id);
      assert s[0] !in s[1..];
    }
  }

  /** In multiple mode, toggling an absent id twice restores the selection. */
  lemma ToggleTwiceRestores(selected: seq<string>, id: string)
    requires id !in selected
    ensures Toggle(Toggle(selected, id, true), id, true) == selected
  {
    RemoveAppend(selected, [id], id);
    RemoveAbsent(selected, id);
  }

  /** Toggling never introduces a duplicate. */
  lemma ToggleKeepsNoDuplicates(selected: seq<string>, id: string, allowMultiple: bool)
    requires NoDuplicates(selected)
    ensures NoDuplicates(Toggle(selected, id, allowMultiple))
  {
    if allowMultiple && id in selected {
      RemoveKeepsNoDuplicates(selected, id);
    }
  }

  class Selector {
    const allowMultiple: bool
    var selectedTypes: seq<string>

    /** The selection has no repeated id and, in single mode, at most one. */
    predicate Valid()
      reads this
    {
      NoDuplicates(selectedTypes) && (!allowMultiple ==> |selectedTypes| <= 1)
    }

    constructor (allowMultiple: bool)
      ensures this.allowMultiple == allowMultiple && selectedTypes == [] && Valid()
    {
      this.allowMultiple := allowMultiple;
      selectedTypes := [];
    }

    /** `toggleSelection`: `notified` is what `onSelectionChange` receives. */
    method ToggleSelection(id: string) returns (notified: seq<string>)
      requires Valid()
      modifies this
      ensures Valid()
      ensures selectedTypes == Toggle(old(selectedTypes), id, allowMultiple)
      ensures notified == selectedTypes
    {
      ToggleKeepsNoDuplicates(selectedTypes, id, allowMultiple);
      var newSelection: seq<string>;
      if allowMultiple {
        newSelection := if id in selectedTypes then Remove(selectedTypes, id) else selectedTypes + [id];
      } else {
        newSelection := if id in selectedTypes then [] else [id];
      }
      selectedTypes := newSelection;
      notified := newSelection;
    }
  }
}
