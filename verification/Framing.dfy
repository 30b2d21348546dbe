/** The length-prefixed framing between the server and its applications, over a bounded ring
    buffer (src/client.cpp, src/client.hpp). */
module FramingSpec {
  const CAPACITY: nat := 12228     // the ring buffer
  const READ_SIZE: nat := 8192     // one read from the socket
  const MAX_MESSAGE: nat := 4037

  // ---------- the encoding: length#payload ----------

  const DIGITS := "0123456789"

  predicate IsDigit(c: char) { '0' <= c <= '9' }

  function DigitValue(c: char): (v: nat)
    requires IsDigit(c)
    ensures v < 10
  {
    c as int - '0' as int
  }

  function ToString(n: nat): (s: string)
    ensures s != [] && forall i :: 0 <= i < |s| ==> IsDigit(s[i])
  {
    if n < 10 then [DIGITS[n]] else ToString(n / 10) + [DIGITS[n % 10]]
  }

  function Value(s: string): nat
    requires forall i :: 0 <= i < |s| ==> IsDigit(s[i])
  {
    if s == [] then 0 else 10 * Value(s[..|s| - 1]) + DigitValue(s[|s| - 1])
  }

  function Encode(m: string): string { ToString(|m|) + "#" + m }

  function EncodeAll(ms: seq<string>): string {
    if ms == [] then [] else Encode(ms[0]) + EncodeAll(ms[1..])
  }

  lemma {:induction false} ValueOfToString(n: nat)
    ensures Value(ToString(n)) == n
  {
    if n >= 10 {
      ValueOfToString(n / 10);
      assert ToString(n)[..|ToString(n)| - 1] == ToString(n / 10);
    }
  }

  lemma {:induction false} ToStringLength(n: nat, k: nat, bound: nat)
    requires k >= 1 && bound == Pow10(k) && n < bound
    ensures |ToString(n)| <= k
  {
    if n >= 10 {
      ToStringLength(n / 10, k - 1, Pow10(k - 1));
    }
  }

  function Pow10(k: nat): (p: nat)
    ensures p >= 1
  {
    if k == 0 then 1 else 10 * Pow10(k - 1)
  }

  // ---------- the ring buffer ----------

  /** Inserting at the end of a ring that is full overwrites its oldest bytes. */
  function Push(buffer: string, chunk: string): (r: string)
    ensures chunk != [] ==> r != []
  {
    var all := buffer + chunk;
    if |all| <= CAPACITY then all else all[|all| - CAPACITY..]
  }

  // ---------- readMessageLength ----------

  /** Header: a whole length was read. NeedMore: the chunk ends inside the length.
      BadLength: runtime_error, the client is dropped. BadNumber: bad_lexical_cast, which no handler
      catches, so nothing is read from this client any more. */
  datatype Header = Header(len: nat, rest: string) | NeedMore | BadLength | BadNumber

  /** `digits` are the digits read so far. */
  function ReadLength(b: string, digits: string): (r: Header)
    requires b != [] && |digits| < 6 && forall i :: 0 <= i < |digits| ==> IsDigit(digits[i])
    ensures r.Header? ==> |r.rest| < |b|
  {
    if b[0] == '#' then
      if digits == [] then BadNumber else Header(Value(digits), b[1..])
    else if !IsDigit(b[0]) || |digits| == 5 then BadLength
    else if |b| == 1 then NeedMore
    else ReadLength(b[1..], digits + [b[0]])
  }

  // ---------- read_handler ----------

  datatype Status = Reading | Left | Stuck

  /** What one connection holds between reads, and every message handed on so far. Nothing is read
      any more once the client has been dropped, so its buffer is not part of that state. */
  datatype Conn = Conn(buffer: string, len: nat, status: Status, delivered: seq<string>)

  const OPEN := Conn([], 0, Reading, [])

  function Dropped(c: Conn, status: Status): Conn { Conn([], 0, status, c.delivered) }

  /** The state after a length has been read off `rest`. */
  function NextLength(c: Conn, rest: string): (r: Conn)
    requires rest != []
    ensures r.len > 0 ==> |r.buffer| < |rest|
  {
    match ReadLength(rest, [])
    case BadLength => Dropped(c, Left)
    case BadNumber => Dropped(c, Stuck)
    case NeedMore => c.(buffer := rest, len := 0)
    case Header(len, after) => c.(buffer := after, len := len)
  }

  /** The loop over whole messages; `accepts` is whether the application layer keeps the client. */
  function Drain(c: Conn, accepts: string -> bool): Conn
    decreases |c.buffer|
  {
    if c.len == 0 || |c.buffer| < c.len then c else
    var m, rest := c.buffer[..c.len], c.buffer[c.len..];
    var c1 := c.(delivered := c.delivered + [m]);
    if !accepts(m) then Dropped(c1, Left)
    else if rest == [] then c1.(buffer := [], len := 0)
    else
      var c2 := NextLength(c1, rest);
      if c2.len == 0 then c2 else Drain(c2, accepts)
  }

  /** One read completes with a chunk of bytes. */
  function Feed(c: Conn, chunk: string, accepts: string -> bool): Conn
    requires chunk != []
  {
    if c.status != Reading then c else
    var b := Push(c.buffer, chunk);
    Drain(if c.len > 0 then c.(buffer := b) else NextLength(c, b), accepts)
  }

  predicate Chunked(chunks: seq<string>) { forall i :: 0 <= i < |chunks| ==> 1 <= |chunks[i]| <= READ_SIZE }

  function FeedAll(c: Conn, chunks: seq<string>, accepts: string -> bool): Conn
    requires Chunked(chunks)
    decreases |chunks|
  {
    if chunks == [] then c else FeedAll(Feed(c, chunks[0], accepts), chunks[1..], accepts)
  }

  function Concat(chunks: seq<string>): string {
    if chunks == [] then [] else chunks[0] + Concat(chunks[1..])
  }
}
