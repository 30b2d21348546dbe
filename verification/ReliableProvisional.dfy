/** RSeq rewriting for reliable provisional responses (RFC 3262) that a proxy relays: the number sent
    upstream is the proxy's own, and a PRACK is given back the number of its branch
    (src/sip-proxy-controller.cpp, src/sip-proxy-controller.hpp). */
module ReliableProvisionals {
  import opened Wrappers
  import opened ProxyTransactions

  /** Numbers are unsigned, of 32 bits, and wrap round. */
  const WORD: nat := 0x1_0000_0000

  type Word = n: nat | n < 0x1_0000_0000

  /** `replaced` gives, for a number sent upstream, the number it stands for. */
  datatype Numbering = Numbering(rseq: Word, replaced: map<Word, Word>)

  const UNUSED := Numbering(0, map[])

  /** A number of zero means that none was drawn yet. Inserting does not replace an earlier entry. */
  function Next(s: Numbering, original: Word, random: Word): (r: Numbering)
    ensures r.rseq == ((if s.rseq == 0 then random else s.rseq) + 1) % WORD
  {
    var n := ((if s.rseq == 0 then random else s.rseq) + 1) % WORD;
    Numbering(n, if n in s.replaced then s.replaced else s.replaced[n := original])
  }

  /** The original of a number sent upstream, and zero for an unknown one. */
  function Original(s: Numbering, rseq: Word): Word {
    if rseq in s.replaced then s.replaced[rseq] else 0
  }

  /** The branch that a PRACK is relayed to: the first whose latest RSeq is the original. */
  function FirstWith(latest: seq<Word>, n: Word): (o: Option<nat>)
    ensures o.Some? ==> o.value < |latest| && latest[o.value] == n && forall i :: 0 <= i < o.value ==> latest[i] != n
    ensures o.None? ==> n !in latest
  {
    if latest == [] then None
    else if latest[0] == n then Some(0)
    else match FirstWith(latest[1..], n) case None => None case Some(i) => Some(i + 1)
  }

  // ---------- the objects ----------

  class ServerTransaction {
    var rseq: Word
    var replaced: map<Word, Word>

    function View(): Numbering
      reads this
    {
      Numbering(rseq, replaced)
    }

    constructor ()
      ensures View() == UNUSED
    {
      rseq, replaced := 0, map[];
    }

    /** What forwarding a reliable provisional response does to its RSeq. */
    method ForwardReliable(original: Word, random: Word) returns (sent: Word)
      modifies this
      ensures View() == Next(old(View()), original, random) && sent == rseq
    {
      if rseq == 0 { rseq := random; }
      rseq := (rseq + 1) % WORD;
      if rseq !in replaced { replaced := replaced[rseq := original]; }
      sent := rseq;
    }

    method GetReplacedRSeq(n: Word) returns (original: Word)
      ensures original == Original(View(), n)
    {
      original := 0;
      if n in replaced { original := replaced[n]; }
    }

    /** The branch that is sent the PRACK, with the number put into its RAck. */
    method ForwardPrack(vec: seq<ClientTransaction>, rack: Word) returns (o: Option<nat>, n: nat)
      ensures o.Some? <==> exists i :: 0 <= i < |vec| && vec[i].rseq == Original(View(), rack)
      ensures o.Some? ==> o.value < |vec| && n == vec[o.value].rseq == Original(View(), rack)
                          && forall i :: 0 <= i < o.value ==> vec[i].rseq != n
    {
      var original := GetReplacedRSeq(rack);
      n := 0;
      for i := 0 to |vec|
        invariant forall j :: 0 <= j < i ==> vec[j].rseq != original
      {
        if vec[i].rseq == original { return Some(i), vec[i].rseq; }
      }
      return None, 0;
    }
  }

  // ---------- runs ----------

  /** A reliable response with number `original` from branch `branch`; `random` is used if drawn. */
  datatype Reliable = Reliable(branch: nat, original: Word, random: Word)

  function Run(s: Numbering, es: seq<Reliable>): Numbering {
    if es == [] then s
    else var s1 := Run(s, es[..|es| - 1]); Next(s1, es[|es| - 1].original, es[|es| - 1].random)
  }

  /** The number that the k-th response of a run goes upstream with. */
  function Upstream(es: seq<Reliable>, k: nat): Word
    requires k < |es|
  {
    Run(UNUSED, es[..k + 1]).rseq
  }

  /** What each branch holds as its latest RSeq; `initial` are the uninitialised fields. */
  function Latest(initial: seq<Word>, es: seq<Reliable>): (l: seq<Word>)
    ensures |l| == |initial|
  {
    if es == [] then initial
    else
      var e := es[|es| - 1];
      var l := Latest(initial, es[..|es| - 1]);
      if e.branch < |l| then l[e.branch := e.original] else l
  }

  /** Short of a wrap, the numbers go up one by one from the random start, and the map holds exactly
      the responses so far. */
  lemma {:induction false} RunOfNumbers(es: seq<Reliable>)
    requires es != [] && es[0].random + |es| < WORD
    ensures var s := Run(UNUSED, es);
      && s.rseq == es[0].random + |es|
      && (forall n :: n in s.replaced <==> es[0].random < n <= es[0].random + |es|)
      && forall k :: 0 <= k < |es| ==> s.replaced[es[0].random + 1 + k] == es[k].original
  {
    var init := es[..|es| - 1];
    if init == [] {
      assert Run(UNUSED, init) == UNUSED;
    } else {
      RunOfNumbers(init);
    }
  }

  /** Upstream numbers are consecutive, exactly if they do not wrap round. */
  lemma ConsecutiveUpstream(es: seq<Reliable>)
    requires es != []
    ensures (forall k :: 0 <= k < |es| ==> Upstream(es, k) == es[0].random + 1 + k) <==> es[0].random + |es| < WORD
  {
    if es[0].random + |es| < WORD {
      forall k | 0 <= k < |es|
        ensures Upstream(es, k) == es[0].random + 1 + k
      {
        RunOfNumbers(es[..k + 1]);
      }
    } else {
      assert Upstream(es, |es| - 1) < WORD;
    }
  }

  /** Rewriting is undone: however many responses follow, a PRACK for the k-th number gets the number
      that its response came with. */
  lemma PrackGetsItsNumber(es: seq<Reliable>, k: nat)
    requires k < |es| && es[0].random + |es| < WORD
    ensures Original(Run(UNUSED, es), Upstream(es, k)) == es[k].original
  {
    hide Run;
    RunOfNumbers(es);
    RunOfNumbers(es[..k + 1]);
    assert Run(UNUSED, es).replaced[es[0].random + 1 + k] == es[k].original;
    assert Upstream(es, k) == es[0].random + 1 + k;
  }

  lemma {:induction false} LatestUntouched(initial: seq<Word>, es: seq<Reliable>, k: nat)
    requires k < |es| && es[k].branch < |initial|
    requires forall j :: k < j < |es| ==> es[j].branch != es[k].branch
    ensures Latest(initial, es)[es[k].branch] == es[k].original
  {
    if k < |es| - 1 {
      var init := es[..|es| - 1];
      LatestUntouched(initial, init, k);
      assert init[k] == es[k];
    }
  }

  /** A PRACK for the last reliable response of a branch reaches that branch, exactly if no branch before
      it in the vector has the same number as its latest. */
  lemma PrackReachesItsBranch(es: seq<Reliable>, k: nat, initial: seq<Word>)
    requires k < |es| && es[0].random + |es| < WORD && es[k].branch < |initial|
    requires forall j :: k < j < |es| ==> es[j].branch != es[k].branch
    ensures
      var latest := Latest(initial, es);
      FirstWith(latest, Original(Run(UNUSED, es), Upstream(es, k))) == Some(es[k].branch)
      <==> forall b :: 0 <= b < es[k].branch ==> latest[b] != es[k].original
  {
    hide Run, Latest, FirstWith, Original, Upstream;
    PrackGetsItsNumber(es, k);
    LatestUntouched(initial, es, k);
    var latest := Latest(initial, es);
    assert es[k].original in latest by { assert latest[es[k].branch] == es[k].original; }
  }

  /** Two branches that both number their response 1: the PRACK for the second goes to the first. */
  lemma SameNumberGoesAstray(random: Word)
    requires random + 2 < WORD
    ensures
      var es := [Reliable(0, 1, random), Reliable(1, 1, random)];
      FirstWith(Latest([0, 0], es), Original(Run(UNUSED, es), Upstream(es, 1))) == Some(0)
  {
    var es := [Reliable(0, 1, random), Reliable(1, 1, random)];
    PrackGetsItsNumber(es, 1);
    LatestUntouched([0, 0], es, 0);
  }

  /** Past the wrap a number of zero is drawn again, and the rewriting is no longer undone. */
  lemma WrapLosesTheNumber(a: Word, b: Word)
    requires a != b
    ensures
      var es := [Reliable(0, a, WORD - 1), Reliable(1, b, WORD - 1)];
      Upstream(es, 0) == 0 == Upstream(es, 1) && Original(Run(UNUSED, es), Upstream(es, 1)) == a
  {
    var es := [Reliable(0, a, WORD - 1), Reliable(1, b, WORD - 1)];
    assert Run(UNUSED, es[..0]) == UNUSED;
    assert es[..1][..0] == es[..0] && es[..2] == es && es[..2][..1] == es[..1];
    assert Run(UNUSED, es[..1]) == Next(UNUSED, a, WORD - 1);
    assert Run(UNUSED, es) == Next(Next(UNUSED, a, WORD - 1), b, WORD - 1);
  }
}
