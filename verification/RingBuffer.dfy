/** The circular buffer of captured exchanges (internal/inspect/buffer.go), without its
    subscribers. */
module RingBuffers {
  import opened Arithmetic
  import opened Streams
  import opened Wrappers

  datatype Exchange = Exchange(id: string, body: seq<Byte>)

  // ---------------------------------------------------------------- specification

  /** The last `capacity` items, the newest first. */
  function Newest(history: seq<Exchange>, capacity: nat): (r: seq<Exchange>)
    ensures |r| == if |history| < capacity then |history| else capacity
  {
    var count := if |history| < capacity then |history| else capacity;
    seq(count, i requires 0 <= i < count => history[|history| - 1 - i])
  }

  function Page(items: seq<Exchange>, offset: nat, limit: nat): seq<Exchange> {
    if offset >= |items| then []
    else items[offset..if limit > |items| - offset then |items| else offset + limit]
  }

  /** A page is as long as the kept items allow, and its i-th item is the i-th newest after the offset. */
  lemma PageIs(history: seq<Exchange>, capacity: nat, offset: nat, limit: nat, page: seq<Exchange>)
    requires var kept := if |history| < capacity then |history| else capacity;
             |page| == if offset >= kept then 0 else if limit < kept - offset then limit else kept - offset
    requires forall i :: 0 <= i < |page| ==> page[i] == history[|history| - 1 - offset - i]
    ensures page == Page(Newest(history, capacity), offset, limit)
  {
  }

  /** Consecutive pages are one longer page. */
  lemma PagesJoin(items: seq<Exchange>, a: nat, b: nat)
    ensures Page(items, 0, a) + Page(items, a, b) == Page(items, 0, a + b)
  {
    if a < |items| {
      assert items[..a] + items[a..] == items;
    }
  }

  /** Adding puts one item in front and, at capacity, pushes the oldest one out. */
  lemma AddShifts(history: seq<Exchange>, capacity: nat, ex: Exchange)
    requires capacity >= 1
    ensures var n := Newest(history, capacity);
            Newest(history + [ex], capacity) == [ex] + (if |n| == capacity then n[..capacity - 1] else n)
  {
  }

  // ------------------------------------------------------------------- positions

  /** The slot of the j-th newest item when the next write goes to w. */
  function Slot(w: int, j: int, capacity: int): int {
    if w - 1 - j >= 0 then w - 1 - j else w - 1 - j + capacity
  }

  lemma SlotByRemainder(w: int, j: int, capacity: int)
    requires 0 <= w < capacity && 0 <= j < capacity
    ensures (w - 1 - j + capacity) % capacity == Slot(w, j, capacity)
    ensures (w - 1 - j + capacity * 2) % capacity == Slot(w, j, capacity)
  {
    Remainder(Slot(w, j, capacity), 0, capacity);
    Remainder(Slot(w, j, capacity), 1, capacity);
    Remainder(Slot(w, j, capacity), 2, capacity);
  }

  lemma NextWrite(w: int, capacity: int)
    requires 0 <= w < capacity
    ensures (w + 1) % capacity == if w + 1 == capacity then 0 else w + 1
  {
    Remainder(if w + 1 == capacity then 0 else w + 1, if w + 1 == capacity then 1 else 0, capacity);
  }

  // ---------------------------------------------------------------------- buffer

  class RingBuffer {
    const capacity: nat
    const entries: array<Option<Exchange>>
    var writeIdx: int
    var count: int
    var closed: bool
    ghost var history: seq<Exchange>    // what was added since the last Clear, oldest first

    ghost predicate Valid()
      reads this, entries
    {
      && capacity >= 1 && entries.Length == capacity
      && 0 <= writeIdx < capacity
      && count == |Newest(history, capacity)|
      && forall j :: 0 <= j < count ==> entries[Slot(writeIdx, j, capacity)] == Some(history[|history| - 1 - j])
    }

    constructor (capacity: nat)
      requires capacity >= 1
      ensures Valid() && history == [] && this.capacity == capacity && fresh(entries) && !closed
    {
      closed := false;
      this.capacity := capacity;
      entries := new Option<Exchange>[capacity](_ => None);
      writeIdx := 0;
      count := 0;
      history := [];
    }

    method Add(ex: Exchange)
      requires Valid()
      modifies this, entries
      ensures Valid() && history == old(history) + [ex] && closed == old(closed)
    {
      NextWrite(writeIdx, capacity);
      entries[writeIdx] := Some(ex);
      writeIdx := (writeIdx + 1) % capacity;
      if count < capacity {
        count := count + 1;
      }
      history := history + [ex];
      forall j | 0 <= j < count
        ensures entries[Slot(writeIdx, j, capacity)] == Some(history[|history| - 1 - j])
      {
        if j > 0 {
          assert Slot(writeIdx, j, capacity) == Slot(old(writeIdx), j - 1, capacity);
          assert old(entries[Slot(writeIdx, j - 1, capacity)]) == Some(old(history)[|old(history)| - 1 - (j - 1)]);
        }
      }
    }

    /** Where the j-th newest item is, as the two reading loops compute it. */
    lemma EntryAt(j: int)
      requires Valid() && 0 <= j < count
      ensures var a, b := (writeIdx - 1 - j + capacity * 2) % capacity, (writeIdx - 1 - j + capacity) % capacity;
              && 0 <= a < entries.Length && a == b
              && entries[a] == Some(history[|history| - 1 - j])
    {
      SlotByRemainder(writeIdx, j, capacity);
    }

    method List(offset: nat, limit: nat) returns (result: seq<Exchange>)
      requires Valid()
      ensures result == Page(Newest(history, capacity), offset, limit)
      ensures var kept := if |history| < capacity then |history| else capacity;
              |result| == if offset >= kept then 0 else if limit < kept - offset then limit else kept - offset
      ensures forall i :: 0 <= i < |result| ==> result[i] == history[|history| - 1 - offset - i]
    {
      if offset >= count {
        return [];
      }
      var n := if limit > count - offset then count - offset else limit;
      result := [];
      for i := 0 to n
        invariant |result| == i && forall j :: 0 <= j < i ==> result[j] == history[|history| - 1 - offset - j]
      {
        EntryAt(offset + i);
        var entry := entries[(writeIdx - 1 - offset - i + capacity * 2) % capacity];
        result := result + [entry.value];
      }
      PageIs(history, capacity, offset, limit, result);
    }

    method Get(id: string) returns (result: Option<Exchange>)
      requires Valid()
      ensures var n := Newest(history, capacity);
              match result
              case None => forall i :: 0 <= i < |n| ==> n[i].id != id
              case Some(ex) =>
                && ex.id == id
                && exists i :: 0 <= i < |n| && n[i] == ex && forall j :: 0 <= j < i ==> n[j].id != id
    {
      for i := 0 to count
        invariant forall j :: 0 <= j < i ==> Newest(history, capacity)[j].id != id
      {
        EntryAt(i);
        var entry := entries[(writeIdx - 1 - i + capacity) % capacity];
        assert entry.value == Newest(history, capacity)[i];
        if entry.value.id == id {
          return entry;
        }
      }
      return None;
    }

    method Len() returns (n: int)
      requires Valid()
      ensures n == if |history| < capacity then |history| else capacity
    {
      return count;
    }

    method Clear()
      requires Valid()
      modifies this, entries
      ensures Valid() && history == [] && closed == old(closed) && entries[..] == seq(capacity, _ => None)
    {
      for i := 0 to entries.Length
        invariant closed == old(closed)
        invariant forall j :: 0 <= j < i ==> entries[j] == None
      {
        entries[i] := None;
      }
      writeIdx := 0;
      count := 0;
      history := [];
    }

    /** A closed buffer keeps its items; it has no subscribers and takes none. */
    method Close()
      modifies this`closed
      ensures closed
    {
      closed := true;
    }
  }
}
