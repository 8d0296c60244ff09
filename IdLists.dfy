/** The two id-keyed list updates the pages apply to their state: replace
    the entries with an updated record's id, and drop the entries with an
    id. */
module IdLists {
  import opened Seqs

  /** `prev.map(x => x.id === updated.id ? updated : x)` */
  function ReplaceById<T>(s: seq<T>, idOf: T -> string, updated: T): (r: seq<T>)
    ensures |r| == |s|
    ensures forall i :: 0 <= i < |s| && idOf(s[i]) == idOf(updated) ==> r[i] == updated
    ensures forall i :: 0 <= i < |s| && idOf(s[i]) != idOf(updated) ==> r[i] == s[i]
  {
    seq(|s|, i requires 0 <= i < |s| => if idOf(s[i]) == idOf(updated) then updated else s[i])
  }

  /** An update never changes the ids at any position. */
  lemma ReplaceKeepsIds<T>(s: seq<T>, idOf: T -> string, updated: T)
    ensures forall i :: 0 <= i < |s| ==> idOf(ReplaceById(s, idOf, updated)[i]) == idOf(s[i])
  {
  }

  /** An update with an id that is not in the list changes nothing. */
  lemma ReplaceAbsent<T>(s: seq<T>, idOf: T -> string, updated: T)
    requires forall x :: x in s ==> idOf(x) != idOf(updated)
    ensures ReplaceById(s, idOf, updated) == s
  {
    assert forall i :: 0 <= i < |s| ==> s[i] in s;
  }

  /** Applying the same update twice is applying it once. */
  lemma ReplaceIdempotent<T>(s: seq<T>, idOf: T -> string, updated: T)
    ensures ReplaceById(ReplaceById(s, idOf, updated), idOf, updated) == ReplaceById(s, idOf, updated)
  {
  }

  /** An entry with the id is in the list afterwards exactly when it was
      before; the updated record is there exactly when its id was. */
  lemma ReplacePresent<T>(s: seq<T>, idOf: T -> string, updated: T)
    ensures updated in ReplaceById(s, idOf, updated) <==> exists x :: x in s && idOf(x) == idOf(updated)
  {
    var r := ReplaceById(s, idOf, updated);
    if updated in r {
      var i :| 0 <= i < |r| && r[i] == updated;
      assert s[i] in s;
    }
    if exists x :: x in s && idOf(x) == idOf(updated) {
      var x :| x in s && idOf(x) == idOf(updated);
      var i :| 0 <= i < |s| && s[i] == x;
      assert r[i] == updated;
    }
  }

  /** `prev.filter(x => x.id !== id)` */
  function RemoveById<T(!new)>(s: seq<T>, idOf: T -> string, id: string): (r: seq<T>)
    ensures forall x :: x in r <==> x in s && idOf(x) != id
    ensures IsSubsequence(r, s)
  {
    FilterIsSubsequence(s, (x: T) => idOf(x) != id);
    Filter(s, (x: T) => idOf(x) != id)
  }

  /** Removing from a joined list is removing from each part. */
  lemma RemoveAppend<T(!new)>(a: seq<T>, b: seq<T>, idOf: T -> string, id: string)
    ensures RemoveById(a + b, idOf, id) == RemoveById(a, idOf, id) + RemoveById(b, idOf, id)
  {
    FilterAppend(a, b, (x: T) => idOf(x) != id);
  }

  /** How many entries have the id. */
  function CountId<T(!new)>(s: seq<T>, idOf: T -> string, id: string): nat
  {
    Count(s, (x: T) => idOf(x) == id)
  }

  /** The entries dropped are exactly those with the id. */
  lemma {:induction false} RemoveCount<T(!new)>(s: seq<T>, idOf: T -> string, id: string)
    ensures |RemoveById(s, idOf, id)| + CountId(s, idOf, id) == |s|
  {
    if s != [] {
      RemoveCount(s[1..], idOf, id);
      assert Filter(s, (x: T) => idOf(x) != id) ==
        (if idOf(s[0]) != id then [s[0]] else []) + Filter(s[1..], (x: T) => idOf(x) != id);
      assert Filter(s, (x: T) => idOf(x) == id) ==
        (if idOf(s[0]) == id then [s[0]] else []) + Filter(s[1..], (x: T) => idOf(x) == id);
    }
  }

  /** Removing an id that is not in the list changes nothing. */
  lemma RemoveAbsent<T(!new)>(s: seq<T>, idOf: T -> string, id: string)
    requires forall x :: x in s ==> idOf(x) != id
    ensures RemoveById(s, idOf, id) == s
  {
    FilterAll(s, (x: T) => idOf(x) != id);
  }
}
