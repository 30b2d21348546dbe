/** The sorted doubly linked timer queue and its one alarm (src/timer-queue.cpp, src/timer-queue.hpp). */
module TimerSpec {
  import opened Wrappers

  /** One queued timer: which callback, and its deadline. */
  datatype Item = Item(id: nat, when: int)

  ghost predicate Sorted(q: seq<Item>) { forall i, j :: 0 <= i < j < |q| ==> q[i].when <= q[j].when }

  /** How many entries a new deadline goes behind: every one that is not later. */
  function InsertPos(q: seq<Item>, when: int): (p: nat)
    ensures p <= |q|
    ensures forall i :: 0 <= i < p ==> q[i].when <= when
    ensures p < |q| ==> when < q[p].when
  {
    if q == [] || when < q[0].when then 0 else 1 + InsertPos(q[1..], when)
  }

  /** Sorted insertion behind every equal deadline. */
  function Inserted(q: seq<Item>, e: Item): seq<Item> {
    var p := InsertPos(q, e.when);
    q[..p] + [e] + q[p..]
  }

  /** The scan of `add` falls off the end exactly when the new deadline equals the last one. */
  predicate FallsOff(q: seq<Item>, when: int) { q != [] && when == q[|q| - 1].when }

  /** What `add` does to the list. */
  function Added(q: seq<Item>, e: Item): seq<Item> { if FallsOff(q, e.when) then q else Inserted(q, e) }

  function Without(q: seq<Item>, k: nat): seq<Item>
    requires k < |q|
  {
    q[..k] + q[k + 1..]
  }

  /** The deadline the alarm has to be set to. */
  function AlarmFor(q: seq<Item>): Option<int> { if q == [] then None else Some(q[0].when) }

  /** What one wake-up of `doTimer` detaches: the head, when it is overdue, and never more. */
  function Due(q: seq<Item>, now: int): seq<Item> { if q != [] && q[0].when < now then q[..1] else [] }

  function AfterWake(q: seq<Item>, now: int): seq<Item> { q[|Due(q, now)|..] }

  lemma InsertedSorted(q: seq<Item>, e: Item)
    requires Sorted(q)
    ensures Sorted(Inserted(q, e))
  {
    var p, r := InsertPos(q, e.when), Inserted(q, e);
    forall i, j | 0 <= i < j < |r|
      ensures r[i].when <= r[j].when
    {
      assert r[i] == if i < p then q[i] else if i == p then e else q[i - 1];
      assert r[j] == if j < p then q[j] else if j == p then e else q[j - 1];
      if i <= p < j {
        assert q[p].when <= q[j - 1].when;
      }
    }
  }

  /** The scan is entered only when the deadline is not beyond the last one; it then finds no place
      exactly when the two are equal. */
  lemma ScanFallsOff(q: seq<Item>, when: int)
    requires Sorted(q) && q != []
    ensures InsertPos(q, when) == |q| <==> q[|q| - 1].when <= when
    ensures FallsOff(q, when) <==> InsertPos(q, when) == |q| && when <= q[|q| - 1].when
  {
    var p := InsertPos(q, when);
    if p < |q| {
      assert q[p].when <= q[|q| - 1].when;
    }
  }

  lemma WithoutSorted(q: seq<Item>, k: nat)
    requires Sorted(q) && k < |q|
    ensures Sorted(Without(q, k))
  {
  }

  lemma InsertedContents(q: seq<Item>, e: Item)
    ensures multiset(Inserted(q, e)) == multiset(q) + multiset{e}
  {
    assert q == q[..InsertPos(q, e.when)] + q[InsertPos(q, e.when)..];
  }
}

module TimerQueues {
  import opened Wrappers
  import opened TimerSpec

  class Entry {
    const item: Item
    var next: Entry?
    var prev: Entry?

    constructor (item: Item)
      ensures this.item == item && next == null && prev == null
    {
      this.item := item;
      next, prev := null, null;
    }
  }

  function Items(q: seq<Entry>): (r: seq<Item>)
    ensures |r| == |q| && forall i :: 0 <= i < |q| ==> r[i] == q[i].item
  {
    seq(|q|, i requires 0 <= i < |q| => q[i].item)
  }

  lemma ItemsInserted(q: seq<Entry>, p: nat, e: Entry)
    requires p <= |q|
    ensures Items(q[..p] + [e] + q[p..]) == Items(q)[..p] + [e.item] + Items(q)[p..]
  {
  }

  lemma ItemsWithout(q: seq<Entry>, k: nat)
    requires k < |q|
    ensures Items(q[..k] + q[k + 1..]) == Without(Items(q), k)
  {
  }

  /** The list after an add, lost or not, and what it means for the alarm. */
  lemma Placed(was: seq<Entry>, e: Entry, now: seq<Entry>, lost: bool)
    requires Sorted(Items(was)) && lost == FallsOff(Items(was), e.item.when) && now != [] && e !in was
    requires now == if lost then was else
      var p := InsertPos(Items(was), e.item.when); was[..p] + [e] + was[p..]
    ensures Items(now) == Added(Items(was), e.item) && Sorted(Items(now)) && |now| == |was| + if lost then 0 else 1
    ensures AlarmFor(Items(now)) == if now[0] == e then Some(e.item.when) else AlarmFor(Items(was))
  {
    if !lost {
      var p := InsertPos(Items(was), e.item.when);
      InsertedSorted(Items(was), e.item);
      ItemsInserted(was, p, e);
      assert now[0] == if p == 0 then e else was[0];
    }
  }

  lemma TailSorted(q: seq<Entry>)
    requires q != [] && Sorted(Items(q))
    ensures Items(q[1..]) == Items(q)[1..] && Sorted(Items(q[1..]))
  {
  }

  class TimerQueue {
    var head: Entry?
    var tail: Entry?
    var length: int
    var alarm: Option<int>
    ghost var q: seq<Entry>
    ghost var drift: nat     // how many adds fell off the end of the scan

    /** The chain from head and the chain back from tail both list q. */
    ghost predicate Linked()
      reads `head, `tail, `q, q
    {
      && (forall i, j :: 0 <= i < j < |q| ==> q[i] != q[j])
      && head == (if q == [] then null else q[0])
      && tail == (if q == [] then null else q[|q| - 1])
      && (forall i {:trigger q[i].next} :: 0 <= i < |q| ==> q[i].next == if i + 1 < |q| then q[i + 1] else null)
      && (forall i {:trigger q[i].prev} :: 0 <= i < |q| ==> q[i].prev == if 0 < i then q[i - 1] else null)
    }

    /** m_length counts the list plus what was lost; with no add lost it is the length. */
    ghost predicate Valid()
      reads this, q
    {
      Linked() && Sorted(Items(q)) && length == |q| + drift && alarm == AlarmFor(Items(q))
    }

    constructor ()
      ensures Valid() && q == [] && drift == 0
    {
      head, tail, length, alarm := null, null, 0, None;
      q, drift := [], 0;
    }

    /** Link a detached entry in front of the entry at position k. */
    method LinkBefore(entry: Entry, ghost k: nat, ptr: Entry)
      requires Linked() && k < |q| && ptr == q[k] && entry !in q && entry.next == null && entry.prev == null
      modifies this`head, this`q, entry, q
      ensures Linked() && q == old(q)[..k] + [entry] + old(q)[k..]
    {
      entry.next := ptr;
      if head == ptr {
        head := entry;
      } else {
        entry.prev := ptr.prev;
        ptr.prev.next := entry;
      }
      ptr.prev := entry;
      q := q[..k] + [entry] + q[k..];
    }

    /** Link a detached entry behind the last one. */
    method LinkLast(entry: Entry)
      requires Linked() && entry !in q && entry.next == null && entry.prev == null
      modifies this`head, this`tail, this`q, entry, q
      ensures Linked() && q == old(q) + [entry]
    {
      if head == null {
        head, tail := entry, entry;
      } else {
        entry.prev := tail;
        tail.next := entry;
        tail := entry;
      }
      q := q + [entry];
    }

    /** The scan from the head for the first entry with a later deadline. */
    method FindLater(when: int) returns (ptr: Entry?)
      requires Linked()
      ensures var p := InsertPos(Items(q), when); ptr == if p < |q| then q[p] else null
    {
      ptr := head;
      ghost var idx := 0;
      while ptr != null && when >= ptr.item.when
        invariant 0 <= idx <= |q| && idx <= InsertPos(Items(q), when)
        invariant ptr == if idx < |q| then q[idx] else null
        decreases |q| - idx
      {
        idx := idx + 1;
        ptr := ptr.next;
      }
    }

    /** Put a new entry where its deadline belongs; `lost` when the scan found no place for it. */
    method Place(entry: Entry) returns (ghost lost: bool)
      requires Linked() && Sorted(Items(q)) && entry !in q && entry.next == null && entry.prev == null
      modifies this`head, this`tail, this`q, entry, q
      ensures Linked() && q != [] && head == q[0]
      ensures lost == FallsOff(old(Items(q)), entry.item.when)
      ensures lost ==> q == old(q) && entry.next == null && entry.prev == null
      ensures !lost ==>
        var p := InsertPos(old(Items(q)), entry.item.when);
        q == old(q)[..p] + [entry] + old(q)[p..]
    {
      var when := entry.item.when;
      lost := FallsOff(Items(q), when);
      if q != [] {
        ScanFallsOff(Items(q), when);
      }
      if head == null || when > tail.item.when {
        LinkLast(entry);
      } else {
        var ptr := FindLater(when);
        if ptr != null {
          LinkBefore(entry, InsertPos(Items(q), when), ptr);
        }
      }
    }

    method Add(id: nat, milliseconds: nat, now: int) returns (handle: Entry)
      requires Valid()
      modifies this, q
      ensures Valid() && fresh(handle) && handle.item == Item(id, now + milliseconds)
      ensures Items(q) == Added(old(Items(q)), handle.item)
      ensures FallsOff(old(Items(q)), now + milliseconds) ==>
        q == old(q) && drift == old(drift) + 1 && handle.next == null && handle.prev == null
      ensures !FallsOff(old(Items(q)), now + milliseconds) ==>
        var p := InsertPos(old(Items(q)), now + milliseconds);
        q == old(q)[..p] + [handle] + old(q)[p..] && drift == old(drift)
    {
      hide Linked, Sorted, Added, AlarmFor, FallsOff, InsertPos;
      var when := now + milliseconds;
      handle := new Entry(Item(id, when));
      ghost var was := q;
      ghost var lost := Place(handle);
      Placed(was, handle, q, lost);
      length := length + 1;
      if head == handle {
        alarm := Some(when);
      }
      drift := if lost then drift + 1 else drift;
    }

    /** Take the entry at position k out of the chain; its own pointers stay as they were. */
    method Unlink(entry: Entry, ghost k: nat)
      requires Linked() && k < |q| && q[k] == entry
      modifies this`head, this`tail, this`q, q
      ensures Linked() && q == old(q)[..k] + old(q)[k + 1..]
      ensures entry.next == old(entry.next)
    {
      if head == entry {
        assert k == 0 && q[..0] + q[1..] == q[1..];
        UnlinkHead();
      } else if tail == entry {
        assert k == |q| - 1 && q[..k] + q[|q|..] == q[..k];
        UnlinkTail();
      } else {
        UnlinkMiddle(entry, k);
      }
    }

    method UnlinkHead()
      requires Linked() && q != []
      modifies this`head, this`tail, this`q, q
      ensures Linked() && q == old(q)[1..]
      ensures old(head).next == old(head.next)
    {
      head := head.next;
      if head != null {
        head.prev := null;
      } else {
        tail := null;
      }
      q := q[1..];
    }

    method UnlinkTail()
      requires Linked() && |q| > 1
      modifies this`tail, this`q, q
      ensures Linked() && q == old(q)[..|old(q)| - 1]
      ensures old(tail).next == old(tail.next)
    {
      tail := tail.prev;
      tail.next := null;
      q := q[..|q| - 1];
    }

    method UnlinkMiddle(entry: Entry, ghost k: nat)
      requires Linked() && 0 < k < |q| - 1 && q[k] == entry
      modifies this`q, q
      ensures Linked() && q == old(q)[..k] + old(q)[k + 1..]
      ensures entry.next == old(entry.next)
    {
      ghost var was := q;
      assert entry.prev == was[k - 1] && entry.next == was[k + 1];
      entry.prev.next := entry.next;
      entry.next.prev := entry.prev;
      q := was[..k] + was[k + 1..];
      forall i | 0 <= i < |q|
        ensures q[i].next == (if i + 1 < |q| then q[i + 1] else null)
        ensures q[i].prev == (if 0 < i then q[i - 1] else null)
      {
        assert q[i] == was[if i < k then i else i + 1];
      }
    }

    /** `remove`: a handle whose entry is not in the queue (it fired, or its add fell off) is ignored. */
    method Remove(entry: Entry)
      requires Valid() && (entry in q || (entry.next == null && entry.prev == null))
      modifies this, q
      ensures Valid() && drift == old(drift)
      ensures entry !in old(q) ==> q == old(q) && length == old(length) && alarm == old(alarm)
      ensures forall k :: 0 <= k < |old(q)| && old(q)[k] == entry ==>
        q == old(q)[..k] + old(q)[k + 1..] && Items(q) == Without(old(Items(q)), k)
    {
      if head != entry && tail != entry && entry.prev == null && entry.next == null {
        NotQueued(entry);
        return;
      }
      ghost var k :| 0 <= k < |q| && q[k] == entry;
      hide Sorted, Without;
      RemoveAt(entry, k);
    }

    method RemoveAt(entry: Entry, ghost k: nat)
      requires Valid() && k < |q| && q[k] == entry
      modifies this, q
      ensures Valid() && drift == old(drift)
      ensures q == old(q)[..k] + old(q)[k + 1..] && Items(q) == Without(old(Items(q)), k)
    {
      ItemsWithout(q, k);
      WithoutSorted(Items(q), k);
      hide Sorted, Without;
      Unlink(entry, k);
      length := length - 1;
      if head == null {
        alarm := None;
      } else if head == entry.next {
        alarm := Some(head.item.when);
      }
    }

    /** A null-linked entry that is neither head nor tail is in no position. */
    lemma NotQueued(entry: Entry)
      requires Linked() && head != entry && tail != entry && entry.prev == null && entry.next == null
      ensures entry !in q
    {
    }

    /** Take the head off the queue and null its pointers. */
    method DetachHead()
      requires Linked() && q != []
      modifies this`head, this`tail, this`q, q
      ensures Linked() && q == old(q)[1..] && old(q)[0] !in q
      ensures old(q)[0].next == null && old(q)[0].prev == null
    {
      var entry := head;
      head := entry.next;
      if head != null {
        head.prev := null;
      } else {
        tail := null;
      }
      entry.prev, entry.next := null, null;
      q := q[1..];
    }

    /** The loop over expired entries. Nulling the first one's next pointer ends it, so one wake-up
        detaches one entry at most and the branch that would chain a second one is never taken. */
    method DetachExpired(now: int) returns (expired: Entry?)
      requires Linked() && q != []
      modifies this`head, this`tail, this`length, this`q, q
      ensures Linked() && length == old(length) - (if expired == null then 0 else 1)
      ensures expired != null <==> old(q)[0].item.when < now
      ensures q == if expired == null then old(q) else old(q)[1..]
      ensures expired != null ==> expired == old(q)[0] && expired !in q && expired.next == null && expired.prev == null
    {
      expired := null;
      var ptr := head;
      while ptr != null && ptr.item.when < now
        invariant Linked() && length == old(length) - (if expired == null then 0 else 1)
        invariant expired == null ==> q == old(q) && ptr == head
        invariant expired != null ==> ptr == null && expired == old(q)[0] && q == old(q)[1..] && expired.item.when < now
        invariant expired != null ==> expired !in q && expired.next == null && expired.prev == null
        decreases ptr != null
      {
        length := length - 1;
        if expired == null {
          DetachHead();
          expired := ptr;
        } else {
          assert false;
        }
        ptr := ptr.next;
      }
    }

    /** `doTimer`, up to the callback: the alarm has gone off, so it is no longer set. */
    method DoTimer(now: int) returns (expired: Entry?)
      requires Valid() && alarm.Some?
      modifies this, q
      ensures Valid() && drift == old(drift)
      ensures old(q) != []
      ensures Due(old(Items(q)), now) == (if expired == null then [] else [expired.item])
      ensures q == old(q)[|Due(old(Items(q)), now)|..] && Items(q) == AfterWake(old(Items(q)), now)
      ensures expired != null ==> expired == old(q)[0] && expired !in q && expired.next == null && expired.prev == null
    {
      assert q != [] && Items(q)[0] == q[0].item;
      TailSorted(q);
      hide Sorted;
      alarm := None;
      expired := DetachExpired(now);
      assert Items(q) == AfterWake(old(Items(q)), now);
      SetAlarm();
    }

    method SetAlarm()
      requires Linked() && alarm == None
      modifies this`alarm
      ensures alarm == AlarmFor(Items(q))
    {
      if head != null {
        alarm := Some(head.item.when);
      }
    }

    method PositionOf(handle: Entry) returns (pos: int)
      requires Linked()
      ensures if handle in q then 0 <= pos < |q| && q[pos] == handle else pos == -1
    {
      pos := 0;
      var ptr := head;
      while ptr != null
        invariant 0 <= pos <= |q| && ptr == (if pos < |q| then q[pos] else null)
        invariant handle !in q[..pos]
        decreases |q| - pos
      {
        if ptr == handle {
          return;
        }
        pos := pos + 1;
        ptr := ptr.next;
      }
      pos := -1;
    }

    method NumberOfElements() returns (len: nat)
      requires Linked()
      ensures len == |q|
    {
      len := 0;
      var ptr := head;
      while ptr != null
        invariant len <= |q| && ptr == (if len < |q| then q[len] else null)
        decreases |q| - len
      {
        len := len + 1;
        ptr := ptr.next;
      }
    }

    /** `isEmpty` reads m_length; it tells the truth exactly when no add has ever been lost. */
    method IsEmpty() returns (r: bool)
      requires Valid()
      ensures r <==> q == [] && drift == 0
    {
      r := 0 == length;
    }
  }
}
