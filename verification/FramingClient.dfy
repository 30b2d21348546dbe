/** The connection object: the length read byte by byte off the ring buffer, the loop over whole
    messages, and the sender's half (src/client.cpp). */
module FramingClients {
  import opened FramingSpec

  /** How reading a length ended. Continue: more bytes follow it. Split: the buffer ends inside or right
      after it. Invalid: runtime_error. BadCast: no digits at all, bad_lexical_cast. */
  datatype LengthRead = Continue | Split | Invalid | BadCast

  class BaseClient {
    var buffer: string
    var messageLength: nat
    var status: Status
    var sent: string
    ghost var delivered: seq<string>
    ghost var queued: seq<string>
    /** Whether the application layer keeps the connection after a message. */
    const accepts: string -> bool

    /** The part of the connection that later reads depend on. */
    ghost function View(): Conn
      reads this`buffer, this`messageLength, this`status, this`delivered
    {
      if status == Reading then Conn(buffer, messageLength, Reading, delivered)
      else Conn([], 0, status, delivered)
    }

    constructor (accepts: string -> bool)
      ensures View() == OPEN && this.accepts == accepts && sent == [] && queued == []
    {
      this.accepts := accepts;
      buffer, messageLength, status, sent := [], 0, Reading, [];
      delivered, queued := [], [];
    }

    /** Digits of an unfinished length are put back for the next read. */
    method ReadMessageLength() returns (r: LengthRead)
      requires buffer != []
      modifies this`buffer, this`messageLength
      ensures
        match ReadLength(old(buffer), [])
        case Header(len, rest) =>
          buffer == rest && messageLength == len && r == if rest == [] then Split else Continue
        case NeedMore => buffer == old(buffer) && messageLength == 0 && r == Split
        case BadLength => r == Invalid
        case BadNumber => r == BadCast
    {
      var ch := "";
      var c;
      while true
        invariant buffer != [] && |ch| < 6 && forall i :: 0 <= i < |ch| ==> IsDigit(ch[i])
        invariant old(buffer) == ch + buffer
        invariant ReadLength(old(buffer), []) == ReadLength(buffer, ch)
        decreases |buffer|
      {
        c := buffer[0];
        buffer := buffer[1..];
        if c == '#' { break; }
        if !IsDigit(c) { return Invalid; }
        ch := ch + [c];
        if !(|buffer| > 0 && |ch| < 6) { break; }
      }
      if |ch| == 6 { return Invalid; }
      r := Continue;
      if buffer == [] {
        if c != '#' {
          buffer, messageLength := ch, 0;
          return Split;
        }
        r := Split;
      }
      if ch == [] { return BadCast; }
      messageLength := Value(ch);
    }

    /** The two places that read a length, each with its handlers: whether to look for a message. */
    method StartMessage() returns (goOn: bool)
      requires status == Reading && buffer != []
      modifies this`buffer, this`messageLength, this`status
      ensures View() == NextLength(old(View()), old(buffer))
      ensures !goOn ==> status != Reading || messageLength == 0 || buffer == []
      ensures goOn ==> status == Reading && |buffer| < old(|buffer|)
    {
      var r := ReadMessageLength();
      if r == Invalid {
        status := Left;
      } else if r == BadCast {
        status := Stuck;
      }
      goOn := r == Continue;
    }

    /** A read completes: nothing is read any more once the client is dropped. */
    method ReadHandler(chunk: string)
      requires chunk != [] && status == Reading
      modifies this`buffer, this`messageLength, this`status, this`delivered
      ensures View() == Feed(old(View()), chunk, accepts)
    {
      buffer := Push(buffer, chunk);
      if messageLength == 0 {
        var goOn := StartMessage();
        if !goOn { return; }
      }
      while |buffer| >= messageLength && messageLength > 0
        invariant status == Reading
        invariant Feed(old(View()), chunk, accepts) == Drain(View(), accepts)
        decreases |buffer|
      {
        var message := buffer[..messageLength];
        delivered := delivered + [message];
        if !accepts(message) {
          status := Left;
          return;
        }
        buffer := buffer[messageLength..];
        if |buffer| > 0 {
          var goOn := StartMessage();
          if !goOn { return; }
        } else {
          messageLength := 0;
        }
      }
    }

    /** An empty message is not sent, since a length of zero would start no message. */
    method Send(str: string)
      requires sent == EncodeAll(queued)
      modifies this`sent, this`queued
      ensures queued == old(queued) + if str == [] then [] else [str]
      ensures sent == EncodeAll(queued)
    {
      if |str| == 0 { return; }
      EncodeAllSnoc(queued, str);
      sent := sent + (ToString(|str|) + "#" + str);
      queued := queued + [str];
    }
  }

  lemma {:induction false} EncodeAllSnoc(ms: seq<string>, m: string)
    ensures EncodeAll(ms + [m]) == EncodeAll(ms) + Encode(m)
  {
    if ms == [] {
      assert [m][1..] == [];
      assert EncodeAll([m]) == Encode(m) + [];
    } else {
      EncodeAllSnoc(ms[1..], m);
      assert (ms + [m])[1..] == ms[1..] + [m];
    }
  }
}
