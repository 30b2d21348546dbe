/** Which application gets a new request: a round robin over those registered for its method and, where
    one is asked for, its tag (src/client-controller.cpp). */
module RoundRobinSpec {
  import opened Wrappers

  datatype Client = Client(id: nat, tags: set<string>)

  /** `types` is the multimap of registrations: for each verb its clients, in the map's own order.
      `offsets` has an entry per method, or per method and tag. */
  datatype State = State(types: map<string, seq<Client>>, offsets: map<string, nat>)

  function Group(s: State, verb: string): seq<Client> { if verb in s.types then s.types[verb] else [] }

  function Offset(s: State, key: string): nat { if key in s.offsets then s.offsets[key] else 0 }

  function Lower(s: string): (r: string)
    ensures |r| == |s|
  {
    seq(|s|, i requires 0 <= i < |s| => if 'A' <= s[i] <= 'Z' then (s[i] as int + 32) as char else s[i])
  }

  function Key(verb: string, tag: Option<string>): string {
    if tag.Some? then verb + ":" + tag.value else verb
  }

  predicate HasTag(c: Client, tag: Option<string>) { tag.Some? ==> tag.value in c.tags }

  /** The connected ones: a registration holds its client weakly. */
  function Live(g: seq<Client>, alive: set<Client>): seq<Client> {
    if g == [] then []
    else if g[0] in alive then [g[0]] + Live(g[1..], alive)
    else Live(g[1..], alive)
  }

  function Tagged(g: seq<Client>, tag: Option<string>): seq<Client> {
    if g == [] then []
    else if HasTag(g[0], tag) then [g[0]] + Tagged(g[1..], tag)
    else Tagged(g[1..], tag)
  }

  lemma TaggedCons(c: Client, g: seq<Client>, tag: Option<string>)
    ensures Tagged([c] + g, tag) == if HasTag(c, tag) then [c] + Tagged(g, tag) else Tagged(g, tag)
  {
    assert ([c] + g)[1..] == g;
  }

  lemma LiveCons(c: Client, g: seq<Client>, alive: set<Client>)
    ensures Live([c] + g, alive) == if c in alive then [c] + Live(g, alive) else Live(g, alive)
  {
    assert ([c] + g)[1..] == g;
  }

  function Possibles(s: State, verb: string, tag: Option<string>, alive: set<Client>): seq<Client> {
    Tagged(Live(Group(s, verb), alive), tag)
  }

  /** Disconnected clients are pruned from the method's registrations; the offset counts the possible
      clients only. */
  function Select(s: State, method_: string, tag: Option<string>, alive: set<Client>): (State, Option<Client>) {
    var verb := Lower(method_);
    var s1 := s.(types := s.types[verb := Live(Group(s, verb), alive)]);
    var ps := Possibles(s, verb, tag, alive);
    if ps == [] then (s1, None)
    else
      var off := Offset(s, Key(verb, tag)) % |ps|;
      (s1.(offsets := s.offsets[Key(verb, tag) := off + 1]), Some(ps[off]))
  }

  /** A new registration goes anywhere among those for the same verb. */
  function WantsRequests(s: State, c: Client, verb: string, place: nat): State {
    var g := Group(s, verb);
    var p := if place <= |g| then place else |g|;
    State(s.types[verb := g[..p] + [c] + g[p..]], if verb in s.offsets then s.offsets else s.offsets[verb := 0])
  }

  function Without(g: seq<Client>, c: Client): seq<Client> {
    if g == [] then []
    else if g[0] == c then Without(g[1..], c)
    else [g[0]] + Without(g[1..], c)
  }
}

module RoundRobinFacts {
  import opened Wrappers
  import opened RoundRobinSpec

  // ---------- a registration ----------

  lemma {:induction false} LiveConcat(g: seq<Client>, h: seq<Client>, alive: set<Client>)
    ensures Live(g + h, alive) == Live(g, alive) + Live(h, alive)
  {
    if g == [] {
      assert g + h == h;
    } else {
      assert g + h == [g[0]] + (g[1..] + h) && g == [g[0]] + g[1..];
      LiveConcat(g[1..], h, alive);
      LiveCons(g[0], g[1..] + h, alive);
    }
  }

  lemma {:induction false} TaggedConcat(g: seq<Client>, h: seq<Client>, tag: Option<string>)
    ensures Tagged(g + h, tag) == Tagged(g, tag) + Tagged(h, tag)
  {
    if g == [] {
      assert g + h == h;
    } else {
      assert g + h == [g[0]] + (g[1..] + h) && g == [g[0]] + g[1..];
      TaggedConcat(g[1..], h, tag);
      TaggedCons(g[0], g[1..] + h, tag);
    }
  }

  /** A registration adds one for its verb. No other verb's registrations and no offset changes. */
  lemma RegistersOne(s: State, c: Client, verb: string, place: nat)
    ensures var r := WantsRequests(s, c, verb, place);
      && multiset(Group(r, verb)) == multiset(Group(s, verb)) + multiset{c}
      && (forall v :: v != verb ==> Group(r, v) == Group(s, v))
      && verb in r.offsets && forall k :: Offset(r, k) == Offset(s, k)
  {
    var g := Group(s, verb);
    CountsOne(g, if place <= |g| then place else |g|, c);
    OffsetsSame(s, c, verb, place);
    hide Offset;
  }

  lemma CountsOne(g: seq<Client>, p: nat, c: Client)
    requires p <= |g|
    ensures multiset(g[..p] + [c] + g[p..]) == multiset(g) + multiset{c}
  {
    assert g == g[..p] + g[p..];
  }

  lemma OffsetsSame(s: State, c: Client, verb: string, place: nat)
    ensures forall k :: Offset(WantsRequests(s, c, verb, place), k) == Offset(s, k)
  {
    hide Group;
  }

  /** For every tag the clients that can take a request are those of before, in their order, with the new
      one among them exactly if it is connected and has the tag. */
  lemma RegistersPossible(s: State, c: Client, verb: string, place: nat, tag: Option<string>, alive: set<Client>)
    ensures
      var r, ps := WantsRequests(s, c, verb, place), Possibles(s, verb, tag, alive);
      if c in alive && HasTag(c, tag)
      then exists p :: 0 <= p <= |ps| && Possibles(r, verb, tag, alive) == ps[..p] + [c] + ps[p..]
      else Possibles(r, verb, tag, alive) == ps
    ensures forall v :: v != verb ==>
      Possibles(WantsRequests(s, c, verb, place), v, tag, alive) == Possibles(s, v, tag, alive)
  {
    hide WantsRequests, Possibles, Live, Tagged, HasTag, Group;
    var p := PossiblesAround(s, c, verb, place, tag, alive);
    var ps := Possibles(s, verb, tag, alive);
    if !(c in alive && HasTag(c, tag)) {
      assert ps[..p] + [] + ps[p..] == ps;
    }
    OthersSame(s, c, verb, place, tag, alive);
  }

  lemma OthersSame(s: State, c: Client, verb: string, place: nat, tag: Option<string>, alive: set<Client>)
    ensures forall v :: v != verb ==>
      Possibles(WantsRequests(s, c, verb, place), v, tag, alive) == Possibles(s, v, tag, alive)
  {
    hide Live, Tagged, WantsRequests, Group;
    RegistersOne(s, c, verb, place);
  }

  lemma PossiblesAround(s: State, c: Client, verb: string, place: nat, tag: Option<string>, alive: set<Client>)
    returns (p: nat)
    ensures var r, ps := WantsRequests(s, c, verb, place), Possibles(s, verb, tag, alive);
      p <= |ps| && Possibles(r, verb, tag, alive) ==
        ps[..p] + (if c in alive && HasTag(c, tag) then [c] else []) + ps[p..]
  {
    hide Live, Tagged, HasTag;
    var g := Group(s, verb);
    var at := if place <= |g| then place else |g|;
    PossibleInserted(g[..at], g[at..], c, tag, alive);
    assert g == g[..at] + g[at..];
    assert Group(WantsRequests(s, c, verb, place), verb) == g[..at] + ([c] + g[at..]);
    p := |Tagged(Live(g[..at], alive), tag)|;
  }

  lemma PossibleInserted(fst: seq<Client>, snd: seq<Client>, c: Client, tag: Option<string>, alive: set<Client>)
    ensures Tagged(Live(fst + snd, alive), tag) == Tagged(Live(fst, alive), tag) + Tagged(Live(snd, alive), tag)
    ensures Tagged(Live(fst + ([c] + snd), alive), tag) ==
      Tagged(Live(fst, alive), tag) + (if c in alive && HasTag(c, tag) then [c] else [])
        + Tagged(Live(snd, alive), tag)
  {
    LiveConcat(fst, snd, alive);
    TaggedConcat(Live(fst, alive), Live(snd, alive), tag);
    LiveConcat(fst, [c] + snd, alive);
    LiveCons(c, snd, alive);
    TaggedConcat(Live(fst, alive), Live([c] + snd, alive), tag);
    TaggedCons(c, Live(snd, alive), tag);
    hide Live, Tagged, HasTag;
  }

  // ---------- a client's registrations taken away ----------

  lemma {:induction false} WithoutConcat(g: seq<Client>, h: seq<Client>, c: Client)
    ensures Without(g + h, c) == Without(g, c) + Without(h, c)
  {
    if g == [] {
      assert g + h == h;
    } else {
      assert (g + h)[1..] == g[1..] + h;
      WithoutConcat(g[1..], h, c);
    }
  }

  lemma {:induction false} WithoutCounts(g: seq<Client>, c: Client)
    ensures multiset(Without(g, c)) == multiset(g)[c := 0]
  {
    if g != [] {
      assert g == [g[0]] + g[1..];
      WithoutCounts(g[1..], c);
    }
  }

  /** The client is gone, every other registration is kept, and the one that had i before it that are kept
      has i before it now. */
  lemma WithoutKeepsOrder(g: seq<Client>, c: Client)
    ensures c !in Without(g, c) && multiset(Without(g, c)) == multiset(g)[c := 0]
    ensures forall i :: 0 <= i < |g| && g[i] != c ==>
      |Without(g[..i], c)| < |Without(g, c)| && Without(g, c)[|Without(g[..i], c)|] == g[i]
  {
    WithoutCounts(g, c);
    assert c !in multiset(Without(g, c));
    forall i | 0 <= i < |g| && g[i] != c
      ensures |Without(g[..i], c)| < |Without(g, c)| && Without(g, c)[|Without(g[..i], c)|] == g[i]
    {
      assert g == g[..i] + g[i..];
      WithoutConcat(g[..i], g[i..], c);
    }
  }

  /** Leaving undoes registering: the group is what it was if c was not registered for the verb. */
  lemma LeavingUndoes(s: State, c: Client, verb: string, place: nat)
    ensures Without(Group(WantsRequests(s, c, verb, place), verb), c) == Without(Group(s, verb), c)
    ensures c !in Group(s, verb) ==> Without(Group(WantsRequests(s, c, verb, place), verb), c) == Group(s, verb)
  {
    var g := Group(s, verb);
    var p := if place <= |g| then place else |g|;
    assert Group(WantsRequests(s, c, verb, place), verb) == g[..p] + ([c] + g[p..]) && g == g[..p] + g[p..];
    WithoutConcat(g[..p], [c] + g[p..], c);
    WithoutConcat(g[..p], g[p..], c);
    assert ([c] + g[p..])[1..] == g[p..];
    if c !in g {
      NotThere(g, c);
    }
  }

  lemma {:induction false} NotThere(g: seq<Client>, c: Client)
    requires c !in g
    ensures Without(g, c) == g
  {
    if g != [] {
      NotThere(g[1..], c);
    }
  }
}

module RoundRobins {
  import opened Wrappers
  import opened RoundRobinSpec
  import opened RoundRobinFacts

  class ClientController {
    var types: map<string, seq<Client>>
    var offsets: map<string, nat>

    function View(): State
      reads this
    {
      State(types, offsets)
    }

    constructor ()
      ensures View() == State(map[], map[])
    {
      types, offsets := map[], map[];
    }

    /** One more registration of c for the verb, wherever the multimap puts it; nothing else changes but
        that the verb has an offset from now on. */
    method WantsRequests(c: Client, verb: string, place: nat)
      modifies this
      ensures View() == RoundRobinSpec.WantsRequests(old(View()), c, verb, place)
      ensures multiset(Group(View(), verb)) == old(multiset(Group(View(), verb))) + multiset{c}
      ensures forall v :: v != verb ==> Group(View(), v) == Group(old(View()), v)
      ensures verb in offsets && forall k :: Offset(View(), k) == Offset(old(View()), k)
    {
      RegistersOne(View(), c, verb, place);
      var g := if verb in types then types[verb] else [];
      var p := if place <= |g| then place else |g|;
      types := types[verb := g[..p] + [c] + g[p..]];
      if verb !in offsets { offsets := offsets[verb := 0]; }
    }

    /** The verb is not looked at: the client loses its registrations for every one. */
    method NoLongerWantsRequests(c: Client, verb: string)
      modifies this`types
      ensures types.Keys == old(types.Keys)
      ensures forall v :: Group(View(), v) == Without(Group(old(View()), v), c)
    {
      var todo := types.Keys;
      var before := types;
      while todo != {}
        invariant todo <= before.Keys == types.Keys
        invariant forall v :: v in before ==> types[v] == if v in todo then before[v] else Without(before[v], c)
        decreases |todo|
      {
        var v :| v in todo;
        var kept := RemoveFrom(types[v], c);
        types := types[v := kept];
        todo := todo - {v};
      }
    }

    method RemoveFrom(g: seq<Client>, c: Client) returns (kept: seq<Client>)
      ensures kept == Without(g, c)
    {
      kept := [];
      for i := 0 to |g|
        invariant kept + Without(g[i..], c) == Without(g, c)
      {
        assert g[i..][1..] == g[i + 1..];
        if g[i] != c { kept := kept + [g[i]]; }
      }
    }

    /** Count the clients that can take the request, pruning any that have disconnected. */
    method Prune(g: seq<Client>, tag: Option<string>, alive: set<Client>) returns (kept: seq<Client>, possibles: nat)
      ensures kept == Live(g, alive) && possibles == |Tagged(kept, tag)|
    {
      kept, possibles := [], 0;
      for i := 0 to |g|
        invariant kept + Live(g[i..], alive) == Live(g, alive)
        invariant possibles == |Tagged(kept, tag)|
      {
        assert g[i..][1..] == g[i + 1..];
        if g[i] in alive {
          TaggedSnoc(kept, g[i], tag);
          kept := kept + [g[i]];
          if HasTag(g[i], tag) { possibles := possibles + 1; }
        }
      }
    }

    method Nth(g: seq<Client>, tag: Option<string>, offset: nat) returns (r: Option<Client>)
      ensures r == if offset < |Tagged(g, tag)| then Some(Tagged(g, tag)[offset]) else None
    {
      var n := offset;
      for i := 0 to |g|
        invariant 0 <= n <= offset && offset - n <= |Tagged(g, tag)|
        invariant Tagged(g, tag)[offset - n..] == Tagged(g[i..], tag)
      {
        assert g[i..] == [g[i]] + g[i + 1..];
        TaggedCons(g[i], g[i + 1..], tag);
        assert HasTag(g[i], tag) ==> Tagged(g, tag)[offset - n..][1..] == Tagged(g[i + 1..], tag);
        if HasTag(g[i], tag) {
          if n == 0 { return Some(g[i]); }
          n := n - 1;
        }
      }
      assert g[|g|..] == [] && |Tagged(g, tag)| == offset - n;
      return None;
    }

    method SelectClientForRequestOutsideDialog(keyword: string, tag: Option<string>, alive: set<Client>)
      returns (r: Option<Client>)
      modifies this
      ensures (View(), r) == Select(old(View()), keyword, tag, alive)
    {
      var verb := Lower(keyword);
      var g := if verb in types then types[verb] else [];
      var kept, possibles := Prune(g, tag, alive);
      types := types[verb := kept];
      if possibles == 0 { return None; }
      var key := Key(verb, tag);
      var offset := (if key in offsets then offsets[key] else 0) % possibles;
      offsets := offsets[key := offset + 1];
      r := Nth(kept, tag, offset);
    }
  }

  lemma {:induction false} TaggedSnoc(g: seq<Client>, c: Client, tag: Option<string>)
    ensures Tagged(g + [c], tag) == Tagged(g, tag) + if HasTag(c, tag) then [c] else []
  {
    if g == [] {
      assert ([] + [c])[1..] == [];
    } else {
      assert (g + [c])[1..] == g[1..] + [c];
      TaggedSnoc(g[1..], c, tag);
    }
  }
}

module RoundRobinFairness {
  import opened Wrappers
  import opened RoundRobinSpec

  /** A selection; `alive` are the clients connected at that time. */
  datatype Call = Call(method_: string, tag: Option<string>, alive: set<Client>)

  predicate For(e: Call, verb: string, tag: Option<string>) { Lower(e.method_) == verb && e.tag == tag }

  /** What the selections for one method and tag pick, out of all selections. */
  function Picks(s: State, es: seq<Call>, verb: string, tag: Option<string>): seq<Option<Client>>
    decreases |es|
  {
    if es == [] then []
    else
      var (s1, r) := Select(s, es[0].method_, es[0].tag, es[0].alive);
      (if For(es[0], verb, tag) then [r] else []) + Picks(s1, es[1..], verb, tag)
  }

  // ---------- keys ----------

  predicate ColonFree(s: string) { ':' !in s }

  /** Methods are tokens, so they have no colon; then no two methods and tags share an offset. */
  lemma KeysDiffer(v1: string, t1: Option<string>, v2: string, t2: Option<string>)
    requires ColonFree(v1) && ColonFree(v2)
    ensures Key(v1, t1) == Key(v2, t2) <==> v1 == v2 && t1 == t2
  {
    if Key(v1, t1) == Key(v2, t2) {
      SplitKey(v1, t1, v2, t2);
    }
  }

  lemma SplitKey(v1: string, t1: Option<string>, v2: string, t2: Option<string>)
    requires ColonFree(v1) && ColonFree(v2) && Key(v1, t1) == Key(v2, t2)
    ensures v1 == v2 && t1 == t2
  {
    var k1, k2 := Key(v1, t1), Key(v2, t2);
    assert k1[..|v1|] == v1 && k2[..|v2|] == v2;
    assert t1.Some? ==> k1[|v1|] == ':' && k1[|v1| + 1..] == t1.value;
    assert t2.Some? ==> k2[|v2|] == ':' && k2[|v2| + 1..] == t2.value;
  }

  // ---------- what stays fixed ----------

  /** The registrations that can take such requests are alive in every call or in none. */
  predicate Fixed(g: seq<Client>, tag: Option<string>, alive: set<Client>, es: seq<Call>) {
    forall i, c :: 0 <= i < |es| && c in g && HasTag(c, tag) ==> (c in es[i].alive <==> c in alive)
  }

  lemma {:induction false} LiveMembers(g: seq<Client>, alive: set<Client>, c: Client)
    ensures c in Live(g, alive) <==> c in g && c in alive
  {
    if g != [] {
      assert g == [g[0]] + g[1..];
      LiveMembers(g[1..], alive, c);
    }
  }

  lemma {:induction false} TaggedMembers(g: seq<Client>, tag: Option<string>, c: Client)
    ensures c in Tagged(g, tag) <==> c in g && HasTag(c, tag)
  {
    if g != [] {
      assert g == [g[0]] + g[1..];
      TaggedMembers(g[1..], tag, c);
    }
  }

  /** Pruning at one time does not change who can take the request at another. */
  lemma {:induction false} PossiblesSame(g: seq<Client>, tag: Option<string>, alive: set<Client>, now: set<Client>)
    requires forall c :: c in g && HasTag(c, tag) ==> (c in now <==> c in alive)
    ensures Tagged(Live(g, now), tag) == Tagged(Live(g, alive), tag)
    ensures Tagged(Live(Live(g, now), alive), tag) == Tagged(Live(g, alive), tag)
  {
    if g != [] {
      var c, rest := g[0], g[1..];
      assert g == [c] + rest;
      PossiblesSame(rest, tag, alive, now);
      TaggedCons(c, Live(rest, now), tag);
      TaggedCons(c, Live(rest, alive), tag);
      LiveCons(c, Live(rest, now), alive);
      TaggedCons(c, Live(Live(rest, now), alive), tag);
    }
  }

  /** A selection leaves the possible clients of any method and tag as they are. */
  lemma SelectKeeps(s: State, e: Call, verb: string, tag: Option<string>, alive: set<Client>)
    requires forall c :: c in Group(s, verb) && HasTag(c, tag) ==> (c in e.alive <==> c in alive)
    ensures var s1 := Select(s, e.method_, e.tag, e.alive).0;
      Possibles(s1, verb, tag, alive) == Possibles(s, verb, tag, alive)
      && forall c :: c in Group(s1, verb) ==> c in Group(s, verb)
  {
    PossiblesSame(Group(s, verb), tag, alive, e.alive);
    forall c
      ensures c in Live(Group(s, verb), e.alive) ==> c in Group(s, verb)
    {
      LiveMembers(Group(s, verb), e.alive, c);
    }
    hide Live, Tagged, Lower;
  }

  /** A selection for another method or tag leaves this offset alone. */
  lemma OffsetKept(s: State, e: Call, verb: string, tag: Option<string>)
    requires ColonFree(verb) && ColonFree(Lower(e.method_)) && !For(e, verb, tag)
    ensures Offset(Select(s, e.method_, e.tag, e.alive).0, Key(verb, tag)) == Offset(s, Key(verb, tag))
  {
    KeysDiffer(verb, tag, Lower(e.method_), e.tag);
    hide Key, Lower, Possibles, Live;
  }

  // ---------- fairness ----------

  /** The number of calls for this method and tag. */
  function Calls(es: seq<Call>, verb: string, tag: Option<string>): nat {
    if es == [] then 0 else (if For(es[0], verb, tag) then 1 else 0) + Calls(es[1..], verb, tag)
  }

  function Next(at: nat, k: nat): (r: nat)
    requires at < k
    ensures r < k && r == (at + 1) % k
  {
    if at + 1 == k then 0 else at + 1
  }

  /** n turns round the possible clients, from position `at`. */
  function Cycle(ps: seq<Client>, at: nat, n: nat): seq<Option<Client>>
    requires at < |ps|
    decreases n
  {
    if n == 0 then [] else [Some(ps[at])] + Cycle(ps, Next(at, |ps|), n - 1)
  }

  /** A selection for this method and tag picks the client at the offset and moves it on. */
  lemma OffsetMoves(s: State, e: Call, verb: string, tag: Option<string>, alive: set<Client>)
    requires For(e, verb, tag) && Possibles(s, verb, tag, alive) != []
    requires forall c :: c in Group(s, verb) && HasTag(c, tag) ==> (c in e.alive <==> c in alive)
    ensures
      var ps := Possibles(s, verb, tag, alive);
      var at := Offset(s, Key(verb, tag)) % |ps|;
      var (s1, r) := Select(s, e.method_, e.tag, e.alive);
      r == Some(ps[at]) && Offset(s1, Key(verb, tag)) % |ps| == Next(at, |ps|)
  {
    PossiblesSame(Group(s, verb), tag, alive, e.alive);
    hide Tagged, Live, Group, Lower, Key;
  }

  /** However other calls interleave, the picks go round the possible clients in order. */
  lemma {:induction false} PicksCycle(s: State, es: seq<Call>, verb: string, tag: Option<string>, alive: set<Client>)
    requires ColonFree(verb) && forall i :: 0 <= i < |es| ==> ColonFree(Lower(es[i].method_))
    requires Fixed(Group(s, verb), tag, alive, es) && Possibles(s, verb, tag, alive) != []
    ensures var ps := Possibles(s, verb, tag, alive);
      Picks(s, es, verb, tag) == Cycle(ps, Offset(s, Key(verb, tag)) % |ps|, Calls(es, verb, tag))
    decreases |es|
  {
    if es != [] {
      hide Select, Possibles, Key, Lower, Offset, Group, ColonFree;
      var e, rest := es[0], es[1..];
      var s1 := Select(s, e.method_, e.tag, e.alive).0;
      SelectKeeps(s, e, verb, tag, alive);
      PicksCycle(s1, rest, verb, tag, alive);
      if For(e, verb, tag) {
        OffsetMoves(s, e, verb, tag, alive);
      } else {
        OffsetKept(s, e, verb, tag);
      }
    }
  }

  /** How often position p comes up in n turns from position `at` of a cycle of k. */
  function Turns(p: nat, at: nat, n: nat, k: nat): nat
    requires p < k && at < k
    decreases n
  {
    if n == 0 then 0 else (if at == p then 1 else 0) + Turns(p, Next(at, k), n - 1, k)
  }

  /** How many turns before p comes up first. */
  function Wait(p: nat, at: nat, k: nat): (w: nat)
    requires p < k && at < k
    ensures w < k && (w == 0 <==> at == p)
  {
    if at <= p then p - at else p + k - at
  }

  lemma {:induction false} TurnsBounded(p: nat, at: nat, n: nat, k: nat)
    requires p < k && at < k
    ensures n <= k * Turns(p, at, n, k) + Wait(p, at, k) <= n + k - 1
    decreases n
  {
    if n > 0 {
      TurnsBounded(p, Next(at, k), n - 1, k);
      var t := Turns(p, Next(at, k), n - 1, k);
      if at == p {
        assert Wait(p, Next(at, k), k) == k - 1;
        assert k * (1 + t) == k + k * t;
      } else {
        assert Wait(p, Next(at, k), k) == Wait(p, at, k) - 1;
      }
    }
  }

  lemma MulMonotone(k: nat, a: int, b: int)
    requires a <= b
    ensures k * a <= k * b
  {
  }

  lemma FloorOrCeiling(n: nat, k: nat, t: nat)
    requires k > 0 && n - k < k * t < n + k
    ensures n / k <= t <= n / k + if n % k == 0 then 0 else 1
  {
    var q, r := n / k, n % k;
    assert n == k * q + r;
    if t <= q - 1 {
      MulMonotone(k, t, q - 1);
    } else if t >= q + 2 {
      MulMonotone(k, q + 2, t);
    } else if t == q + 1 {
      assert k * t == k * q + k;
    }
  }

  /** In any n selections in a row for one method and tag, however many others come between them, each of
      the k registrations that can take them is picked n/k times, rounded down or up. */
  lemma Fair(s: State, es: seq<Call>, verb: string, tag: Option<string>, alive: set<Client>, p: nat)
    requires ColonFree(verb) && forall i :: 0 <= i < |es| ==> ColonFree(Lower(es[i].method_))
    requires Fixed(Group(s, verb), tag, alive, es) && p < |Possibles(s, verb, tag, alive)|
    ensures
      var ps, n := Possibles(s, verb, tag, alive), Calls(es, verb, tag);
      var start := Offset(s, Key(verb, tag)) % |ps|;
      && Picks(s, es, verb, tag) == Cycle(ps, start, n)
      && n / |ps| <= Turns(p, start, n, |ps|) <= n / |ps| + if n % |ps| == 0 then 0 else 1
  {
    PicksCycle(s, es, verb, tag, alive);
    var ps, n := Possibles(s, verb, tag, alive), Calls(es, verb, tag);
    var start := Offset(s, Key(verb, tag)) % |ps|;
    hide Picks, Possibles, Calls, Offset, Key, Cycle;
    TurnsBounded(p, start, n, |ps|);
    var w := Wait(p, start, |ps|);
    hide Turns, Wait;
    FloorOrCeiling(n, |ps|, Turns(p, start, n, |ps|));
  }

  /** With every registration a different client, the turns of a position are the picks of a client. */
  lemma {:induction false} TurnsArePicks(ps: seq<Client>, start: nat, n: nat, p: nat)
    requires p < |ps| && start < |ps| && forall i, j :: 0 <= i < j < |ps| ==> ps[i] != ps[j]
    ensures multiset(Cycle(ps, start, n))[Some(ps[p])] == Turns(p, start, n, |ps|)
    decreases n
  {
    if n > 0 {
      TurnsArePicks(ps, Next(start, |ps|), n - 1, p);
    }
  }

  /** Nobody is picked exactly if nobody who is connected is registered for the method with the tag. */
  lemma NobodyOnlyIfNone(s: State, method_: string, tag: Option<string>, alive: set<Client>)
    ensures Select(s, method_, tag, alive).1.None? <==>
      forall c :: c in Group(s, Lower(method_)) && c in alive ==> !HasTag(c, tag)
  {
    var g := Group(s, Lower(method_));
    var ps := Tagged(Live(g, alive), tag);
    forall c
      ensures c in ps <==> c in g && c in alive && HasTag(c, tag)
    {
      LiveMembers(g, alive, c);
      TaggedMembers(Live(g, alive), tag, c);
    }
    assert ps != [] ==> ps[0] in ps;
    hide Live, Tagged, Lower;
  }

  /** A method that is named like another one with a tag would share that one's offset. */
  lemma ColonShares(verb: string, tag: string)
    ensures Key(verb + ":" + tag, None) == Key(verb, Some(tag))
  {
  }
}
