/** Whole runs of one timer queue under a clock that never goes back. */
module TimerRuns {
  import opened TimerSpec

  datatype Fired = Fired(item: Item, at: int)

  /** The list as the queue keeps it, and the history of every entry ever added. */
  datatype Run = Run(q: seq<Item>, clock: int, added: multiset<Item>,
                     fired: seq<Fired>, removed: multiset<Item>, lost: multiset<Item>)

  /** The alarm goes off no earlier than it was set for; an entry is removed by its handle. */
  datatype Event = Add(id: nat, milliseconds: nat, now: int) | Remove(k: nat) | Wake(now: int)

  const START := Run([], 0, multiset{}, [], multiset{}, multiset{})

  predicate Enabled(s: Run, e: Event) {
    match e
    case Add(_, _, now) => s.clock <= now
    case Remove(k) => k < |s.q|
    case Wake(now) => s.clock <= now && AlarmFor(s.q).Some? && AlarmFor(s.q).value <= now
  }

  function Stamp(items: seq<Item>, now: int): seq<Fired> {
    if items == [] then [] else [Fired(items[0], now)]
  }

  function Step(s: Run, e: Event): Run
    requires Enabled(s, e)
  {
    match e
    case Add(id, ms, now) =>
      var item := Item(id, now + ms);
      s.(q := Added(s.q, item), clock := now, added := s.added + multiset{item},
         lost := if FallsOff(s.q, item.when) then s.lost + multiset{item} else s.lost)
    case Remove(k) => s.(q := Without(s.q, k), removed := s.removed + multiset{s.q[k]})
    case Wake(now) =>
      s.(q := AfterWake(s.q, now), clock := now, fired := s.fired + Stamp(Due(s.q, now), now))
  }

  predicate IsRun(ss: seq<Run>, es: seq<Event>) {
    && |ss| == |es| + 1 && ss[0] == START
    && forall i :: 0 <= i < |es| ==> Enabled(ss[i], es[i]) && ss[i + 1] == Step(ss[i], es[i])
  }

  function FiredItems(fired: seq<Fired>): multiset<Item> {
    if fired == [] then multiset{} else FiredItems(fired[..|fired| - 1]) + multiset{fired[|fired| - 1].item}
  }

  /** No entry has fired early, they fired in deadline order, and none still queued is due before them. */
  ghost predicate Timely(s: Run) {
    && (forall i :: 0 <= i < |s.fired| ==> s.fired[i].item.when < s.fired[i].at <= s.clock)
    && (forall i, j :: 0 <= i < j < |s.fired| ==> s.fired[i].item.when <= s.fired[j].item.when)
    && (forall i, x :: 0 <= i < |s.fired| && x in s.q ==> s.fired[i].item.when <= x.when)
  }

  /** Every entry ever added is queued, has fired, was removed or was lost, and only one of these. */
  ghost predicate Accounted(s: Run) {
    s.added == multiset(s.q) + FiredItems(s.fired) + s.removed + s.lost
  }

  lemma InsertedMembers(q: seq<Item>, e: Item)
    ensures forall x :: x in Inserted(q, e) ==> x in q || x == e
  {
  }

  lemma AddTimely(s: Run, id: nat, ms: nat, now: int)
    requires Sorted(s.q) && Timely(s) && s.clock <= now
    ensures Sorted(Step(s, Add(id, ms, now)).q) && Timely(Step(s, Add(id, ms, now)))
  {
    var item := Item(id, now + ms);
    InsertedSorted(s.q, item);
    InsertedMembers(s.q, item);
    hide Inserted, Sorted;
  }

  lemma RemoveTimely(s: Run, k: nat)
    requires Sorted(s.q) && Timely(s) && k < |s.q|
    ensures Sorted(Step(s, Remove(k)).q) && Timely(Step(s, Remove(k)))
  {
    WithoutSorted(s.q, k);
    forall x | x in Without(s.q, k)
      ensures x in s.q
    {
    }
    hide Without, Sorted;
  }

  lemma WakeEffect(s: Run, now: int)
    requires Enabled(s, Wake(now))
    ensures s.q != []
    ensures Step(s, Wake(now)) ==
      if s.q[0].when < now then s.(q := s.q[1..], clock := now, fired := s.fired + [Fired(s.q[0], now)])
      else s.(clock := now)
  {
  }

  /** The head is the earliest entry, so what fires next is due no earlier than what fired before. */
  lemma WakeTimely(s: Run, now: int)
    requires Sorted(s.q) && Timely(s) && Enabled(s, Wake(now))
    ensures Sorted(Step(s, Wake(now)).q) && Timely(Step(s, Wake(now)))
  {
    WakeEffect(s, now);
    hide Step;
    assert s.q[0] in s.q;
    assert forall x :: x in s.q[1..] ==> x in s.q && s.q[0].when <= x.when;
  }

  lemma SameItems(q: seq<Item>, k: nat)
    requires k < |q|
    ensures multiset(q) == multiset(Without(q, k)) + multiset{q[k]}
  {
    assert q == q[..k] + [q[k]] + q[k + 1..];
  }

  lemma AddAccounted(s: Run, id: nat, ms: nat, now: int)
    requires Accounted(s) && Enabled(s, Add(id, ms, now))
    ensures Accounted(Step(s, Add(id, ms, now)))
  {
    InsertedContents(s.q, Item(id, now + ms));
    hide Inserted;
  }

  lemma RemoveAccounted(s: Run, k: nat)
    requires Accounted(s) && Enabled(s, Remove(k))
    ensures Accounted(Step(s, Remove(k)))
  {
    SameItems(s.q, k);
    hide Without;
  }

  lemma WakeAccounted(s: Run, now: int)
    requires Accounted(s) && Enabled(s, Wake(now))
    ensures Accounted(Step(s, Wake(now)))
  {
    WakeEffect(s, now);
    hide Step;
    SameItems(s.q, 0);
    assert Without(s.q, 0) == s.q[1..];
    var f := s.fired + [Fired(s.q[0], now)];
    assert f[..|f| - 1] == s.fired;
  }

  lemma {:induction false} EveryRun(ss: seq<Run>, es: seq<Event>, i: nat)
    requires IsRun(ss, es) && i < |ss|
    ensures Sorted(ss[i].q) && Timely(ss[i]) && Accounted(ss[i])
  {
    if i > 0 {
      hide Sorted, Timely, Accounted, Step;
      var s, e := ss[i - 1], es[i - 1];
      EveryRun(ss, es, i - 1);
      match e
      case Add(id, ms, now) => AddTimely(s, id, ms, now); AddAccounted(s, id, ms, now);
      case Remove(k) => RemoveTimely(s, k); RemoveAccounted(s, k);
      case Wake(now) => WakeTimely(s, now); WakeAccounted(s, now);
    }
  }

  /** No entry is lost in a run in which no add meets the deadline of the last entry. */
  lemma {:induction false} NothingLost(ss: seq<Run>, es: seq<Event>, i: nat)
    requires IsRun(ss, es) && i < |ss|
    ensures ss[i].lost == multiset{} <==>
      forall j :: 0 <= j < i && es[j].Add? ==> !FallsOff(ss[j].q, es[j].now + es[j].milliseconds)
  {
    if i > 0 {
      NothingLost(ss, es, i - 1);
    }
  }

  // ---------- draining ----------

  function Wakes(q: seq<Item>, now: int, k: nat): seq<Item> {
    if k == 0 then q else AfterWake(Wakes(q, now, k - 1), now)
  }

  /** With exactly k entries overdue, the j-th wake-up fires the j-th of them, k wake-ups drain them
      all, and the alarm is armed for each wake-up on the way; after that a wake-up fires nothing. */
  lemma {:induction false} DrainsOnePerWake(q: seq<Item>, now: int, k: nat, j: nat)
    requires Sorted(q) && k <= |q| && j <= k
    requires (forall i :: 0 <= i < k ==> q[i].when < now) && (k < |q| ==> now <= q[k].when)
    ensures Wakes(q, now, j) == q[j..]
    ensures Due(Wakes(q, now, j), now) == if j < k then [q[j]] else []
    ensures j < k ==> AlarmFor(Wakes(q, now, j)).Some? && AlarmFor(Wakes(q, now, j)).value < now
    ensures j == k && k < |q| ==> now <= AlarmFor(Wakes(q, now, j)).value
  {
    if j > 0 {
      DrainsOnePerWake(q, now, k, j - 1);
    }
  }

  /** The add that falls off: an entry asked for 100 ms, then another for 100 ms at the same instant. */
  lemma EqualDeadlineIsLost()
    ensures
      var s1 := Step(START, Add(1, 100, 0));
      var s2 := Step(s1, Add(2, 100, 0));
      s2.q == [Item(1, 100)] && s2.lost == multiset{Item(2, 100)}
  {
    assert Step(START, Add(1, 100, 0)).q == [Item(1, 100)];
  }
}
