/** Events on a connection: a two-byte little-endian length, then the payload. */
module EventFraming {
  import opened Prelude

  const LIMIT := 65536

  function LengthPrefix(n: nat): seq<byte> {
    var low := n % LIMIT;
    [(low % 256) as byte, (low / 256) as byte]
  }

  function PrefixLength(low: byte, high: byte): nat {
    low as nat + 256 * (high as nat)
  }

  /** What writing one payload appends to the stream. */
  function Frame(payload: seq<byte>): seq<byte> {
    LengthPrefix(|payload|) + payload
  }

  /** What reading one event takes off the stream, when every read fills its buffer. */
  function Unframe(stream: seq<byte>): Option<(seq<byte>, seq<byte>)> {
    if |stream| < 2 then None
    else
      var n := PrefixLength(stream[0], stream[1]);
      if |stream| < 2 + n then None else Some((stream[2..2 + n], stream[2 + n..]))
  }

  function Min(a: nat, b: nat): nat {
    if a < b then a else b
  }

  function Zeros(n: nat): seq<byte> {
    seq(n, _ => 0)
  }

  /** What one read of a zeroed buffer of n bytes gives when `arrived` bytes are there, and what
      it leaves. */
  function Take(stream: seq<byte>, n: nat, arrived: nat): Option<(seq<byte>, seq<byte>)> {
    var k := Min(n, Min(arrived, |stream|));
    if n > 0 && k == 0 then None else Some((stream[..k] + Zeros(n - k), stream[k..]))
  }

  /** What reading one event gives, and what it leaves on the stream. */
  function ReadOne(stream: seq<byte>, first: nat, second: nat): (Option<seq<byte>>, seq<byte>) {
    match Take(stream, 2, first)
    case None => (None, stream)
    case Some((header, rest)) =>
      match Take(rest, PrefixLength(header[0], header[1]), second)
      case None => (None, rest)
      case Some((payload, left)) => (Some(payload), left)
  }

  function FrameAll(payloads: seq<seq<byte>>): seq<byte> {
    if payloads == [] then [] else Frame(payloads[0]) + FrameAll(payloads[1..])
  }

  function UnframeMany(n: nat, stream: seq<byte>): Option<(seq<seq<byte>>, seq<byte>)> {
    if n == 0 then Some(([], stream))
    else match Unframe(stream)
      case None => None
      case Some((payload, rest)) =>
        match UnframeMany(n - 1, rest)
        case None => None
        case Some((payloads, after)) => Some(([payload] + payloads, after))
  }

  class Connection {
    var stream: seq<byte>

    constructor (stream: seq<byte>)
      ensures this.stream == stream
    {
      this.stream := stream;
    }

    method Append(data: seq<byte>)
      modifies this
      ensures stream == old(stream) + data
    {
      stream := stream + data;
    }

    /** One call to Read: copies what has arrived, at most a buffer full; fails when that is nothing
        although something was asked for. A short read is no failure. */
    method Fill(buffer: array<byte>, arrived: nat) returns (ok: bool)
      requires forall i :: 0 <= i < buffer.Length ==> buffer[i] == 0
      modifies this, buffer
      ensures match Take(old(stream), buffer.Length, arrived)
        case Some((data, rest)) => ok && buffer[..] == data && stream == rest
        case None => !ok && stream == old(stream)
    {
      var k := Min(buffer.Length, Min(arrived, |stream|));
      if buffer.Length > 0 && k == 0 { return false; }
      for i := 0 to k
        invariant stream == old(stream)
        invariant buffer[..i] == stream[..i]
        invariant forall j :: i <= j < buffer.Length ==> buffer[j] == 0
      {
        buffer[i] := stream[i];
      }
      assert buffer[..] == stream[..k] + Zeros(buffer.Length - k);
      stream := stream[k..];
      return true;
    }

    method WriteEvent(payload: seq<byte>)
      modifies this
      ensures stream == old(stream) + Frame(payload)
    {
      var length := new byte[2];
      var n := |payload| % LIMIT;
      length[0] := (n % 256) as byte;
      length[1] := (n / 256) as byte;
      assert length[..] == LengthPrefix(|payload|);
      Append(length[..]);
      Append(payload);
      assert old(stream) + LengthPrefix(|payload|) + payload == old(stream) + Frame(payload);
    }

    /** `first` and `second` are the numbers of bytes that have arrived at the two reads. */
    method ReadEvent(first: nat, second: nat) returns (payload: Option<seq<byte>>)
      modifies this
      ensures (payload, stream) == ReadOne(old(stream), first, second)
    {
      var header := new byte[2](_ => 0);
      var ok := Fill(header, first);
      if !ok { return None; }
      assert header[0] == header[..][0] && header[1] == header[..][1];
      var buffer := new byte[PrefixLength(header[0], header[1])](_ => 0);
      ok := Fill(buffer, second);
      if !ok { return None; }
      return Some(buffer[..]);
    }
  }

  /** When at least as many bytes as asked for have arrived at both reads, an event is taken as Unframe says. */
  lemma FullReads(stream: seq<byte>, first: nat, second: nat)
    requires Unframe(stream).Some? && first >= 2 && second >= |Unframe(stream).value.0|
    ensures var (payload, rest) := Unframe(stream).value;
      ReadOne(stream, first, second) == (Some(payload), rest)
  {
    var n := PrefixLength(stream[0], stream[1]);
    assert stream[..2] + Zeros(0) == stream[..2];
    assert stream[2..][..n] + Zeros(0) == stream[2..2 + n];
    assert stream[2..][n..] == stream[2 + n..];
  }

  /** An event written is read back, and the stream left at its end, exactly when both reads fill their
      buffers: the source does not read on after a short read. */
  lemma ReadsBackIfFull(payload: seq<byte>, rest: seq<byte>, first: nat, second: nat)
    requires |payload| < LIMIT
    ensures ReadOne(Frame(payload) + rest, first, second) == (Some(payload), rest)
        <==> first >= 2 && second >= |payload|
  {
    var s := Frame(payload) + rest;
    UnframeFrame(payload, rest);
    assert payload[..|payload|] == payload && payload[|payload|..] + rest == rest;
    if first >= 2 && second >= |payload| {
      FullReads(s, first, second);
    } else if first >= 2 {
      assert Take(s, 2, first).value == (s[..2] + Zeros(0), s[2..]);
      assert (s[..2] + Zeros(0))[0] == s[0] && (s[..2] + Zeros(0))[1] == s[1];
      ShortReadLeavesMore(s[2..], |payload|, second);
    } else if first == 1 {
      assert Take(s, 2, first).value == (s[..1] + Zeros(1), s[1..]);
      assert (s[..1] + Zeros(1))[0] == s[0] && (s[..1] + Zeros(1))[1] == 0;
    }
  }

  /** A short read takes less off the stream than was asked for. */
  lemma ShortReadLeavesMore(stream: seq<byte>, n: nat, arrived: nat)
    requires arrived < n <= |stream|
    ensures Take(stream, n, arrived).Some? ==> |Take(stream, n, arrived).value.1| > |stream| - n
  {
  }

  /** The bytes on the wire: the length, lower byte first, then the payload. */
  lemma FrameBytes(payload: seq<byte>)
    ensures var f := Frame(payload);
      && |f| == 2 + |payload| && f[2..] == payload
      && f[0] as int == |payload| % 256
      && f[1] as int == |payload| / 256 % 256
  {
    var n := |payload|;
    assert n % LIMIT % 256 == n % 256 && n % LIMIT / 256 == n / 256 % 256 by {
      var q := n / LIMIT;
      assert n == 65536 * q + n % LIMIT;
      assert n / 256 == 256 * q + n % LIMIT / 256;
    }
  }

  /** One event read back from a stream that starts with one written: the payload cut to its length
      modulo 65536, and everything after the cut left on the stream. */
  lemma UnframeFrame(payload: seq<byte>, rest: seq<byte>)
    ensures var n := |payload| % LIMIT;
      Unframe(Frame(payload) + rest) == Some((payload[..n], payload[n..] + rest))
  {
    var n := |payload| % LIMIT;
    var s := Frame(payload) + rest;
    assert s[0] == (n % 256) as byte && s[1] == (n / 256) as byte;
    assert PrefixLength(s[0], s[1]) == n;
    assert s[2..] == payload + rest;
    assert s[2..2 + n] == s[2..][..n] == payload[..n];
    assert s[2 + n..] == s[2..][n..] == payload[n..] + rest;
  }

  /** Reading one more event than m from a stream that starts with one written. */
  lemma ReadOneMore(p: seq<byte>, m: nat, after: seq<byte>)
    ensures UnframeMany(m + 1, Frame(p) + after) ==
      var n := |p| % LIMIT;
      match UnframeMany(m, p[n..] + after)
      case None => None
      case Some((payloads, left)) => Some(([p[..n]] + payloads, left))
  {
    hide Frame;
    hide Unframe;
    UnframeFrame(p, after);
  }

  /** Writing a list of payloads and reading as many events gives them back in order and consumes
      the stream up to what follows, if and only if every payload is shorter than 65536 bytes. */
  lemma {:induction false} FramingRoundTrip(payloads: seq<seq<byte>>, rest: seq<byte>)
    ensures UnframeMany(|payloads|, FrameAll(payloads) + rest) == Some((payloads, rest))
        <==> forall p :: p in payloads ==> |p| < LIMIT
  {
    hide Frame;
    hide UnframeMany;
    if payloads == [] {
      assert FrameAll(payloads) + rest == rest;
      NothingToRead(rest);
    } else {
      var p, tail := payloads[0], payloads[1..];
      var after := FrameAll(tail) + rest;
      assert FrameAll(payloads) + rest == Frame(p) + after;
      ReadOneMore(p, |tail|, after);
      FramingRoundTrip(tail, rest);
      assert payloads == [p] + tail;
      if |p| < LIMIT {
        assert p[..|p|] == p && p[|p|..] + after == after;
        SplitHead(p, tail, UnframeMany(|tail|, after), rest);
        assert (forall q :: q in payloads ==> |q| < LIMIT) <==> (forall q :: q in tail ==> |q| < LIMIT);
      } else {
        var n := |p| % LIMIT;
        assert |p[..n]| != |p|;
        var outcome := UnframeMany(|tail|, p[n..] + after);
        if outcome.Some? { assert ([p[..n]] + outcome.value.0)[0] != payloads[0]; }
        assert p in payloads;
      }
    }
  }

  lemma NothingToRead(rest: seq<byte>)
    ensures UnframeMany(0, rest) == Some(([], rest))
  {
  }

  lemma SplitHead(p: seq<byte>, tail: seq<seq<byte>>, read: Option<(seq<seq<byte>>, seq<byte>)>, rest: seq<byte>)
    ensures (read.Some? && [p] + read.value.0 == [p] + tail && read.value.1 == rest) <==> read == Some((tail, rest))
  {
    if read.Some? && [p] + read.value.0 == [p] + tail {
      assert ([p] + read.value.0)[1..] == read.value.0 && ([p] + tail)[1..] == tail;
    }
  }
}
