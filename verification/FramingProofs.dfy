/** Framing is lossless: every message arrives whole and in order, however the stream is cut. */
module FramingProofs {
  import opened FramingSpec

  predicate Small(ms: seq<string>) { forall i :: 0 <= i < |ms| ==> 1 <= |ms[i]| <= MAX_MESSAGE }

  /** The messages that reach the application: all of them, up to the first it refuses. */
  function Kept(ms: seq<string>, accepts: string -> bool): seq<string> {
    if ms == [] then [] else [ms[0]] + if accepts(ms[0]) then Kept(ms[1..], accepts) else []
  }

  predicate AllKept(ms: seq<string>, accepts: string -> bool) {
    forall i :: 0 <= i < |ms| ==> accepts(ms[i])
  }

  /** Between reads: what is buffered is an unfinished length or an unfinished message, and together
      with the bytes still to come it is the encoding of the messages still to be delivered. */
  ghost predicate Waiting(c: Conn, ms: seq<string>, rest: string) {
    && c.status == Reading
    && if c.len == 0 then
         && c.buffer + rest == EncodeAll(ms)
         && (c.buffer != [] ==> ms != [] && c.buffer <= ToString(|ms[0]|))
       else
         && ms != [] && c.len == |ms[0]| && |c.buffer| < c.len
         && c.buffer + rest == ms[0] + EncodeAll(ms[1..])
  }

  /** A length has just been read and its message is at the front of the stream. */
  ghost predicate Ready(c: Conn, ms: seq<string>, rest: string) {
    && c.status == Reading && c.len > 0
    && ms != [] && c.len == |ms[0]| && c.buffer + rest == ms[0] + EncodeAll(ms[1..])
  }

  lemma {:induction false} ReadWhole(ds: string, digits: string, x: string)
    requires 1 <= |digits| + |ds| <= 5
    requires forall i :: 0 <= i < |ds| ==> IsDigit(ds[i])
    requires forall i :: 0 <= i < |digits| ==> IsDigit(digits[i])
    ensures ReadLength(ds + "#" + x, digits) == Header(Value(digits + ds), x)
  {
    var b := ds + "#" + x;
    if ds == [] {
      assert digits + ds == digits && b[1..] == x;
    } else {
      ReadWhole(ds[1..], digits + [ds[0]], x);
      assert b[1..] == ds[1..] + "#" + x;
      assert digits + [ds[0]] + ds[1..] == digits + ds;
    }
  }

  lemma {:induction false} ReadPart(p: string, digits: string)
    requires p != [] && |digits| + |p| <= 5
    requires forall i :: 0 <= i < |p| ==> IsDigit(p[i])
    requires forall i :: 0 <= i < |digits| ==> IsDigit(digits[i])
    ensures ReadLength(p, digits) == NeedMore
  {
    if |p| > 1 {
      ReadPart(p[1..], digits + [p[0]]);
    }
  }

  lemma ShortLength(n: nat)
    requires n < 100000
    ensures |ToString(n)| <= 5 && (n < 10000 ==> |ToString(n)| <= 4)
  {
    assert Pow10(2) == 100;
    assert Pow10(4) == 10000;
    assert Pow10(5) == 100000;
    ToStringLength(n, 5, 100000);
    if n < 10000 {
      ToStringLength(n, 4, 10000);
    }
  }

  /** The stream ends inside the length: wait. */
  lemma NextLengthWaits(c: Conn, b: string, ds: string)
    requires b != [] && b <= ds && |b| <= 5 && forall i :: 0 <= i < |ds| ==> IsDigit(ds[i])
    ensures NextLength(c, b) == c.(buffer := b, len := 0)
  {
    ReadPart(b, []);
  }

  /** The whole length is there: its message is at the front of what follows. */
  lemma NextLengthReads(c: Conn, n: nat, x: string)
    requires n < 100000
    ensures NextLength(c, ToString(n) + "#" + x) == c.(buffer := x, len := n)
  {
    var ds := ToString(n);
    ShortLength(n);
    ValueOfToString(n);
    ReadWhole(ds, [], x);
    assert [] + ds == ds;
  }

  /** A prefix of ds # tail stops inside ds, or goes beyond the mark. */
  lemma CutPrefix(b: string, rest: string, ds: string, tail: string)
    requires b + rest == ds + "#" + tail
    ensures |b| <= |ds| ==> b <= ds
    ensures |b| > |ds| ==> b == ds + "#" + b[|ds| + 1..] && b[|ds| + 1..] + rest == tail
  {
    var s := b + rest;
    assert b == s[..|b|] && ds == s[..|ds|];
    if |b| > |ds| {
      assert s[|ds|] == '#' && tail == s[|ds| + 1..];
      assert b[..|ds|] == ds && b[|ds|] == '#';
      assert b == b[..|ds|] + [b[|ds|]] + b[|ds| + 1..];
    }
  }

  /** Reading the next length off a stream of messages either waits or makes a message ready. */
  lemma NextLengthCorrect(c: Conn, b: string, ms: seq<string>, rest: string)
    requires c.status == Reading && b != [] && Small(ms) && b + rest == EncodeAll(ms)
    ensures var r := NextLength(c, b);
      r.delivered == c.delivered && if r.len == 0 then Waiting(r, ms, rest) else Ready(r, ms, rest)
  {
    hide NextLength, ToString;
    var ds, tail := ToString(|ms[0]|), ms[0] + EncodeAll(ms[1..]);
    ShortLength(|ms[0]|);
    assert EncodeAll(ms) == ds + "#" + tail;
    CutPrefix(b, rest, ds, tail);
    if |b| <= |ds| {
      NextLengthWaits(c, b, ds);
    } else {
      NextLengthReads(c, |ms[0]|, b[|ds| + 1..]);
    }
  }

  /** What processing a read may lead to: k messages delivered, then waiting, or dropped at the k-th. */
  ghost predicate Handled(c: Conn, r: Conn, ms: seq<string>, rest: string, accepts: string -> bool, k: nat) {
    && k <= |ms| && r.delivered == c.delivered + ms[..k]
    && if r.status == Reading then AllKept(ms[..k], accepts) && Waiting(r, ms[k..], rest)
       else r.status == Left && Kept(ms, accepts) == ms[..k] && !AllKept(ms, accepts)
  }

  /** One accepted message in front of what a smaller run leads to. */
  lemma HandledCons(c: Conn, c1: Conn, r: Conn, ms: seq<string>, rest: string, accepts: string -> bool, j: nat)
    requires ms != [] && accepts(ms[0]) && c1.delivered == c.delivered + [ms[0]]
    requires Handled(c1, r, ms[1..], rest, accepts, j)
    ensures Handled(c, r, ms, rest, accepts, j + 1)
  {
    hide Waiting;
    assert ms[..j + 1] == [ms[0]] + ms[1..][..j];
    assert ms[j + 1..] == ms[1..][j..];
    AllKeptCons(ms, accepts, j + 1);
  }

  lemma WaitingHandled(c: Conn, r: Conn, ms: seq<string>, rest: string, accepts: string -> bool)
    requires Waiting(r, ms, rest) && r.delivered == c.delivered
    ensures Handled(c, r, ms, rest, accepts, 0)
  {
    assert ms[0..] == ms;
  }

  lemma RefusedHandled(c: Conn, r: Conn, ms: seq<string>, rest: string, accepts: string -> bool)
    requires ms != [] && !accepts(ms[0]) && r.status == Left && r.delivered == c.delivered + [ms[0]]
    ensures Handled(c, r, ms, rest, accepts, 1)
  {
    assert ms[..1] == [ms[0]];
  }

  /** The front of a ready buffer is its message, the rest is the encoding of the others. */
  lemma TakeMessage(c: Conn, ms: seq<string>, rest: string)
    requires Ready(c, ms, rest) && c.len <= |c.buffer|
    ensures c.buffer[..c.len] == ms[0] && c.buffer[c.len..] + rest == EncodeAll(ms[1..])
  {
    var all := c.buffer + rest;
    assert all[..c.len] == c.buffer[..c.len] && all[c.len..] == c.buffer[c.len..] + rest;
    assert all[..c.len] == ms[0] && all[c.len..] == EncodeAll(ms[1..]);
  }

  lemma {:induction false} DrainCorrect(c: Conn, ms: seq<string>, rest: string, accepts: string -> bool)
    returns (k: nat)
    requires Small(ms) && Ready(c, ms, rest)
    ensures Handled(c, Drain(c, accepts), ms, rest, accepts, k)
    decreases |c.buffer|
  {
    if |c.buffer| < c.len {
      WaitingHandled(c, c, ms, rest, accepts);
      return 0;
    }
    TakeMessage(c, ms, rest);
    hide Handled, EncodeAll, Kept;
    var b := c.buffer[c.len..];
    var c1 := c.(delivered := c.delivered + [ms[0]]);
    if !accepts(ms[0]) {
      RefusedHandled(c, Drain(c, accepts), ms, rest, accepts);
      return 1;
    }
    if b == [] {
      WaitingHandled(c1, Drain(c, accepts), ms[1..], rest, accepts);
      HandledCons(c, c1, Drain(c, accepts), ms, rest, accepts, 0);
      return 1;
    }
    SmallTail(ms, 1);
    NextLengthCorrect(c1, b, ms[1..], rest);
    var c2 := NextLength(c1, b);
    if c2.len == 0 {
      WaitingHandled(c1, c2, ms[1..], rest, accepts);
      HandledCons(c, c1, c2, ms, rest, accepts, 0);
      return 1;
    }
    var j := DrainCorrect(c2, ms[1..], rest, accepts);
    HandledCons(c, c2, Drain(c, accepts), ms, rest, accepts, j);
    k := j + 1;
  }

  lemma AllKeptCons(ms: seq<string>, accepts: string -> bool, k: nat)
    requires 1 <= k <= |ms| && accepts(ms[0])
    ensures AllKept(ms[..k], accepts) <==> AllKept(ms[1..][..k - 1], accepts)
    ensures AllKept(ms, accepts) <==> AllKept(ms[1..], accepts)
  {
    assert forall i :: 1 <= i < |ms| ==> ms[i] == ms[1..][i - 1];
    assert forall i :: 0 <= i < |ms[1..]| ==> ms[1..][i] == ms[i + 1];
  }

  /** Between reads at most 4036 bytes are buffered, so a read of at most 8192 never overwrites. */
  lemma NothingOverwritten(c: Conn, ms: seq<string>, rest: string, chunk: string)
    requires Small(ms) && Waiting(c, ms, rest) && |chunk| <= READ_SIZE
    ensures |c.buffer| <= MAX_MESSAGE - 1 && Push(c.buffer, chunk) == c.buffer + chunk
  {
    if c.len == 0 && c.buffer != [] {
      ShortLength(|ms[0]|);
    }
  }

  lemma FeedCorrect(c: Conn, ms: seq<string>, chunk: string, rest: string, accepts: string -> bool) returns (k: nat)
    requires Small(ms) && Waiting(c, ms, chunk + rest) && 1 <= |chunk| <= READ_SIZE
    ensures Handled(c, Feed(c, chunk, accepts), ms, rest, accepts, k)
  {
    NothingOverwritten(c, ms, chunk + rest, chunk);
    var b := c.buffer + chunk;
    assert b + rest == c.buffer + (chunk + rest);
    k := 0;
    if c.len > 0 {
      k := DrainCorrect(c.(buffer := b), ms, rest, accepts);
    } else {
      NextLengthCorrect(c, b, ms, rest);
      var c1 := NextLength(c, b);
      if c1.len > 0 {
        k := DrainCorrect(c1, ms, rest, accepts);
      } else {
        assert ms[0..] == ms;
      }
    }
  }

  lemma {:induction false} DroppedStays(c: Conn, chunks: seq<string>, accepts: string -> bool)
    requires Chunked(chunks) && c.status != Reading
    ensures FeedAll(c, chunks, accepts) == c
    decreases |chunks|
  {
    if chunks != [] {
      DroppedStays(c, chunks[1..], accepts);
    }
  }

  /** With no bytes left to come, nothing can be waiting. */
  lemma NothingWaits(c: Conn, ms: seq<string>)
    requires Waiting(c, ms, [])
    ensures c.status == Reading && ms == [] && c.buffer == [] && c.len == 0
  {
    assert c.buffer + [] == c.buffer;
  }

  lemma {:induction false} FeedAllCorrect(c: Conn, ms: seq<string>, chunks: seq<string>, accepts: string -> bool)
    requires Small(ms) && Chunked(chunks) && Waiting(c, ms, Concat(chunks))
    ensures var r := FeedAll(c, chunks, accepts);
      && r.delivered == c.delivered + Kept(ms, accepts)
      && if AllKept(ms, accepts) then r.buffer == [] && r.len == 0 && r.status == Reading else r.status == Left
    decreases |chunks|
  {
    hide Waiting, Feed, Small, AllKept, Kept;
    if chunks == [] {
      NothingWaits(c, ms);
      NoneKept(accepts);
    } else {
      var k := FeedCorrect(c, ms, chunks[0], Concat(chunks[1..]), accepts);
      var r := Feed(c, chunks[0], accepts);
      if r.status == Reading {
        SmallTail(ms, k);
        FeedAllCorrect(r, ms[k..], chunks[1..], accepts);
        KeptSplit(ms[..k], ms[k..], accepts);
        assert ms == ms[..k] + ms[k..];
        AllKeptSplit(ms, k, accepts);
      } else {
        DroppedStays(r, chunks[1..], accepts);
      }
    }
  }

  lemma NoneKept(accepts: string -> bool)
    ensures Kept([], accepts) == [] && AllKept([], accepts)
  {
  }

  lemma SmallTail(ms: seq<string>, k: nat)
    requires Small(ms) && k <= |ms|
    ensures Small(ms[k..])
  {
  }

  lemma AllKeptSplit(ms: seq<string>, k: nat, accepts: string -> bool)
    requires k <= |ms| && AllKept(ms[..k], accepts)
    ensures AllKept(ms, accepts) <==> AllKept(ms[k..], accepts)
  {
    assert forall i :: 0 <= i < k ==> ms[i] == ms[..k][i];
    assert forall i :: k <= i < |ms| ==> ms[i] == ms[k..][i - k];
    assert forall i :: 0 <= i < |ms| - k ==> ms[k..][i] == ms[i + k];
  }

  lemma KeptTail(ms: seq<string>, accepts: string -> bool)
    requires ms != [] && AllKept(ms, accepts)
    ensures accepts(ms[0]) && AllKept(ms[1..], accepts)
  {
  }

  lemma KeptCons(m: string, ms: seq<string>, accepts: string -> bool)
    ensures Kept([m] + ms, accepts) == if accepts(m) then [m] + Kept(ms, accepts) else [m]
  {
    assert ([m] + ms)[1..] == ms;
  }

  lemma {:induction false} KeptSplit(a: seq<string>, b: seq<string>, accepts: string -> bool)
    requires AllKept(a, accepts)
    ensures Kept(a + b, accepts) == a + Kept(b, accepts)
  {
    hide AllKept, Kept;
    if a == [] {
      assert a + b == b;
    } else {
      var m, rest := a[0], a[1..];
      KeptTail(a, accepts);
      KeptSplit(rest, b, accepts);
      KeptCons(m, rest + b, accepts);
      assert a + b == [m] + (rest + b);
      assert [m] + (rest + Kept(b, accepts)) == a + Kept(b, accepts);
    }
  }

  lemma {:induction false} KeptAll(ms: seq<string>, accepts: string -> bool)
    requires AllKept(ms, accepts)
    ensures Kept(ms, accepts) == ms
  {
    if ms != [] {
      KeptAll(ms[1..], accepts);
    }
  }

  /** For every list of nonempty messages of at most 4037 bytes and every way of cutting their
      encoding into reads of at most 8192 bytes, exactly those messages are delivered, in order, and
      nothing is left over; with an application that refuses one, exactly those up to it. */
  lemma FramingIsLossless(ms: seq<string>, chunks: seq<string>, accepts: string -> bool)
    requires Small(ms) && Chunked(chunks) && Concat(chunks) == EncodeAll(ms)
    ensures FeedAll(OPEN, chunks, accepts).delivered == Kept(ms, accepts)
    ensures AllKept(ms, accepts) ==> FeedAll(OPEN, chunks, accepts) == Conn([], 0, Reading, ms)
    ensures !AllKept(ms, accepts) ==> FeedAll(OPEN, chunks, accepts).status == Left
  {
    FeedAllCorrect(OPEN, ms, chunks, accepts);
    if AllKept(ms, accepts) {
      KeptAll(ms, accepts);
    }
  }

  lemma {:induction false} DrainOnlyAppends(c: Conn, accepts: string -> bool)
    ensures c.delivered <= Drain(c, accepts).delivered
    decreases |c.buffer|
  {
    if c.len > 0 && |c.buffer| >= c.len {
      var c1 := c.(delivered := c.delivered + [c.buffer[..c.len]]);
      var rest := c.buffer[c.len..];
      if accepts(c.buffer[..c.len]) && rest != [] && NextLength(c1, rest).len > 0 {
        DrainOnlyAppends(NextLength(c1, rest), accepts);
      }
    }
  }

  // ---------- longer messages ----------

  /** The bytes that come after the first 4037 of a message, as many as one read takes. */
  function NextRead(s: string): (r: string)
    requires |s| > CAPACITY
    ensures |r| == READ_SIZE
  {
    s[MAX_MESSAGE..CAPACITY + 1]
  }

  /** The bound is exact. For any longer message that fits the ring, with more of the stream behind it than
      the ring holds in all: 4037 of its bytes may arrive in one read, and a full read after them
      overwrites the first. What is delivered is the message without its first byte and with the first
      byte of the next length. */
  lemma LongerIsOverwritten(m: string, after: string, accepts: string -> bool)
    requires 4037 < |m| <= 12228 < |m + after|
    ensures
      var first, second := ToString(|m|) + "#" + m[..MAX_MESSAGE], NextRead(m + after);
      && Chunked([first, second]) && first + second <= Encode(m) + after
      && Push(Feed(OPEN, first, accepts).buffer, second) == (m + after)[1..CAPACITY + 1]
      && [(m + after)[1..|m| + 1]] <= FeedAll(OPEN, [first, second], accepts).delivered
  {
    hide ToString, Drain;
    var s, x := m + after, m[..MAX_MESSAGE];
    var first, second := ToString(|m|) + "#" + x, NextRead(s);
    ShortLength(|m|);
    var c := Conn(x, |m|, Reading, []);
    FirstWaits(m, accepts);
    assert x + second == s[..CAPACITY + 1];
    assert Push(x, second) == s[1..CAPACITY + 1];
    assert s[1..CAPACITY + 1][..|m|] == s[1..|m| + 1];
    DeliversFront(c.(buffer := s[1..CAPACITY + 1]), accepts);
    FeedBoth(first, second, accepts);
    InStream(m, after);
  }

  lemma FirstWaits(m: string, accepts: string -> bool)
    requires MAX_MESSAGE < |m| <= CAPACITY
    ensures Feed(OPEN, ToString(|m|) + "#" + m[..MAX_MESSAGE], accepts) == Conn(m[..MAX_MESSAGE], |m|, Reading, [])
  {
    hide ToString;
    var first := ToString(|m|) + "#" + m[..MAX_MESSAGE];
    ShortLength(|m|);
    NextLengthReads(OPEN, |m|, m[..MAX_MESSAGE]);
    assert Push([], first) == first;
  }

  lemma FeedBoth(first: string, second: string, accepts: string -> bool)
    requires Chunked([first, second]) && first != [] && second != []
    ensures FeedAll(OPEN, [first, second], accepts) == Feed(Feed(OPEN, first, accepts), second, accepts)
  {
    hide Feed;
    var c := Feed(OPEN, first, accepts);
    assert [first, second][1..] == [second] && [second][1..] == [];
    assert FeedAll(c, [second], accepts) == FeedAll(Feed(c, second, accepts), [], accepts);
  }

  lemma InStream(m: string, after: string)
    requires MAX_MESSAGE < |m| <= CAPACITY < |m + after|
    ensures ToString(|m|) + "#" + m[..MAX_MESSAGE] + NextRead(m + after) <= Encode(m) + after
  {
    hide ToString;
    var s := m + after;
    assert m[..MAX_MESSAGE] + NextRead(s) == s[..CAPACITY + 1];
    assert Encode(m) + after == ToString(|m|) + "#" + (s[..CAPACITY + 1] + s[CAPACITY + 1..]);
  }

  /** What is delivered then is the message only if all its bytes and the next one are the same. */
  lemma {:induction false} ShiftedIsSame(s: string, n: nat)
    requires n < |s|
    ensures s[1..n + 1] == s[..n] <==> forall i :: 0 <= i <= n ==> s[i] == s[0]
  {
    if n > 0 {
      ShiftedIsSame(s, n - 1);
      assert s[1..n + 1] == s[1..n] + [s[n]] && s[..n] == s[..n - 1] + [s[n - 1]];
    }
  }

  lemma {:induction false} LongLength(n: nat)
    requires n >= 100000
    ensures |ToString(n)| >= 6
  {
    assert |ToString(n / 10)| >= 5 by {
      assert n / 10 >= 10000;
      FiveDigits(n / 10);
    }
  }

  lemma FiveDigits(n: nat)
    requires n >= 10000
    ensures |ToString(n)| >= 5
  {
    var a := n / 10;
    var b := a / 10;
    var d := b / 10;
    assert d >= 10;
    assert |ToString(d)| >= 2;
    assert |ToString(b)| == |ToString(d)| + 1;
    assert |ToString(a)| == |ToString(b)| + 1;
  }

  /** A length of six digits or more is refused with its sixth digit. */
  lemma {:induction false} ReadTooLong(ds: string, tail: string, digits: string)
    requires |digits| <= 5 && |digits| + |ds| >= 6
    requires forall i :: 0 <= i < |ds| ==> IsDigit(ds[i])
    requires forall i :: 0 <= i < |digits| ==> IsDigit(digits[i])
    ensures ReadLength(ds + tail, digits) == BadLength
  {
    if |digits| < 5 {
      ReadTooLong(ds[1..], tail, digits + [ds[0]]);
      assert (ds + tail)[1..] == ds[1..] + tail;
    }
  }

  /** On the way to a message that is longer than the ring: its length is unfinished, or read, or was
      refused. */
  predicate Hopeless(c: Conn, n: nat) {
    && c.delivered == []
    && match c.status
       case Reading => (c.len == 0 && c.buffer <= ToString(n) && |c.buffer| <= 5) || c.len == n
       case Left => true
       case Stuck => false
  }

  /** Reading a length that begins the stream `b + rest`. */
  lemma HopelessLength(c: Conn, b: string, rest: string, n: nat, tail: string)
    requires n > CAPACITY && c.status == Reading && c.delivered == [] && b != []
    requires b + rest == ToString(n) + "#" + tail
    ensures Hopeless(NextLength(c, b), n) && (NextLength(c, b).len == 0 || NextLength(c, b).len == n)
    ensures NextLength(c, b).status == Reading && NextLength(c, b).len == 0 ==> NextLength(c, b).buffer == b
  {
    hide NextLength, ToString;
    var ds := ToString(n);
    if |b| <= 5 && b <= ds {
      NextLengthWaits(c, b, ds);
    } else if n < 100000 {
      ShortLength(n);
      CutPrefix(b, rest, ds, tail);
      NextLengthReads(c, n, b[|ds| + 1..]);
    } else {
      SixDigits(c, b, rest, n, tail);
    }
  }

  lemma SixDigits(c: Conn, b: string, rest: string, n: nat, tail: string)
    requires n >= 100000 && !(|b| <= 5 && b <= ToString(n))
    requires b + rest == ToString(n) + "#" + tail
    ensures b != [] && NextLength(c, b) == Dropped(c, Left)
  {
    hide ToString;
    var ds := ToString(n);
    LongLength(n);
    assert b[..|b|] == (b + rest)[..|b|];
    assert |b| >= 6 && b[..6] == ds[..6] by {
      assert forall i :: 0 <= i < |b| && i < |ds| ==> b[i] == (b + rest)[i] == ds[i];
    }
    ReadTooLong(b[..6], b[6..], []);
    assert b[..6] + b[6..] == b;
  }

  /** A message longer than the ring is never delivered, however its encoding is cut into reads: up to five
      digits of length the connection waits for it forever, and with six the client is dropped. */
  lemma LongestNeverArrives(m: string, after: string, chunks: seq<string>, accepts: string -> bool)
    requires |m| > 12228 && Chunked(chunks) && Concat(chunks) <= Encode(m) + after
    ensures FeedAll(OPEN, chunks, accepts).delivered == [] && FeedAll(OPEN, chunks, accepts).status != Stuck
  {
    var stream := Encode(m) + after;
    assert stream == ToString(|m|) + "#" + (m + after);
    var rest := stream[|Concat(chunks)|..];
    assert OPEN.buffer + Concat(chunks) + rest == stream;
    NeverArrives(OPEN, |m|, m + after, chunks, rest, accepts);
  }

  lemma {:induction false} NeverArrives(c: Conn, n: nat, tail: string, chunks: seq<string>, rest: string,
                                        accepts: string -> bool)
    requires n > CAPACITY && Chunked(chunks) && Hopeless(c, n)
    requires c.status == Reading && c.len == 0 ==> c.buffer + Concat(chunks) + rest == ToString(n) + "#" + tail
    ensures Hopeless(FeedAll(c, chunks, accepts), n)
    decreases |chunks|
  {
    hide ToString, NextLength;
    if chunks != [] {
      var r := Feed(c, chunks[0], accepts);
      if c.status == Reading && c.len == 0 {
        var b, more := c.buffer + chunks[0], Concat(chunks[1..]) + rest;
        assert b + more == c.buffer + Concat(chunks) + rest;
        assert Push(c.buffer, chunks[0]) == b;
        HopelessLength(c, b, more, n, tail);
        assert r == NextLength(c, b);
      }
      NeverArrives(r, n, tail, chunks[1..], rest, accepts);
    }
  }

  lemma DeliversFront(c: Conn, accepts: string -> bool)
    requires 0 < c.len <= |c.buffer|
    ensures c.delivered + [c.buffer[..c.len]] <= Drain(c, accepts).delivered
  {
    var c1 := c.(delivered := c.delivered + [c.buffer[..c.len]]);
    var rest := c.buffer[c.len..];
    if accepts(c.buffer[..c.len]) && rest != [] {
      DrainOnlyAppends(NextLength(c1, rest), accepts);
    }
  }
}
