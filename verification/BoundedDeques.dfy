/** A deque with a maximum length, as a ring over an array. */
module BoundedDeques {
  import opened LogBuffer

  class BoundedDeque<T(0)> {
    const slots: array<T>
    var start: nat
    var len: nat

    ghost predicate Valid()
      reads this
    {
      len <= slots.Length && (slots.Length > 0 ==> start < slots.Length)
    }

    /** The slot of the k-th oldest element, or of the first free one after them. */
    function Slot(k: nat): (i: nat)
      requires Valid() && k < slots.Length
      reads this
      ensures i < slots.Length
    {
      if start + k < slots.Length then start + k else start + k - slots.Length
    }

    /** Its elements, the oldest first. */
    ghost function Contents(): (s: seq<T>)
      requires Valid()
      reads this, slots
      ensures |s| == len
    {
      seq(len, k requires 0 <= k < len && Valid() reads this, slots => slots[Slot(k)])
    }

    constructor (maxlen: nat)
      ensures Valid() && fresh(slots) && slots.Length == maxlen && Contents() == []
    {
      slots := new T[maxlen];
      start, len := 0, 0;
    }

    /** What does not fit pushes the oldest element out; with no room at all, nothing is kept. */
    method Append(x: T)
      requires Valid()
      modifies this, slots
      ensures Valid() && Contents() == Push(slots.Length, old(Contents()), x)
    {
      ghost var before := Contents();
      if slots.Length == 0 {
        assert Push(0, before, x) == [];
      } else if len < slots.Length {
        slots[Slot(len)] := x;
        len := len + 1;
        assert Contents() == before + [x];
      } else {
        slots[start] := x;
        start := if start + 1 < slots.Length then start + 1 else 0;
        assert forall k :: 0 <= k < len - 1 ==> Slot(k) == old(Slot(k + 1));
        assert Contents() == (before + [x])[1..];
      }
    }

    method Clear()
      requires Valid()
      modifies this
      ensures Valid() && Contents() == []
    {
      start, len := 0, 0;
    }

    /** A copy of the oldest `limit` elements, fewer if it has fewer, and none below zero. */
    method Copy(limit: int) returns (copied: seq<T>)
      requires Valid()
      ensures copied <= Contents()
      ensures |copied| == if limit < 0 then 0 else if limit < len then limit else len
    {
      copied := [];
      while |copied| < len && |copied| < limit
        invariant |copied| <= len && (limit > 0 ==> |copied| <= limit)
        invariant copied == Contents()[..|copied|]
        invariant limit <= 0 ==> copied == []
      {
        copied := copied + [slots[Slot(|copied|)]];
      }
    }
  }
}
