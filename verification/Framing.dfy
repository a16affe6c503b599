/** The packets that process_solutions sends, transfer_all under any chunking of send and
    recv, and the read-length-then-body discipline that takes the stream apart again. */
module Framing {
  import opened Options

  type Byte = x: int | 0 <= x < 256

  /** The fields of solution_t that travel; source_len is |source|. */
  datatype Solution = Solution(id: nat, compilerId: nat, source: seq<Byte>)

  const U32: nat := 0x1_0000_0000
  const U16: nat := 0x1_0000

  /** OP_CHECK_SLN */
  const OP_CHECK_SLN: Byte := 10

  predicate Representable(s: Solution) { s.id < U32 && s.compilerId < U32 && |s.source| < U32 }

  // ---- Network byte order ----

  /** htons of the low 16 bits of n. */
  function BigEndian16(n: nat): (r: seq<Byte>)
    ensures |r| == 2
  {
    [n / 256 % 256, n % 256]
  }

  function BigEndian32(n: nat): (r: seq<Byte>)
    ensures |r| == 4
  {
    BigEndian16(n / U16) + BigEndian16(n)
  }

  function Read16(b: seq<Byte>): nat
    requires |b| == 2
  {
    256 * (b[0] as int) + b[1]
  }

  function Read32(b: seq<Byte>): nat
    requires |b| == 4
  {
    U16 * Read16(b[..2]) + Read16(b[2..])
  }

  lemma Read16Inverts(n: nat)
    ensures Read16(BigEndian16(n)) == n % U16
  {
    assert n % U16 == 256 * (n / 256 % 256) + n % 256;
  }

  lemma Read32Inverts(n: nat)
    requires n < U32
    ensures Read32(BigEndian32(n)) == n
  {
    Read16Inverts(n);
    Read16Inverts(n / U16);
    var b := BigEndian32(n);
    assert b[..2] == BigEndian16(n / U16) && b[2..] == BigEndian16(n);
    assert n == U16 * (n / U16) + n % U16;
  }

  // ---- Frames ----

  const HEADER_LEN: nat := 13

  function Body(s: Solution): (r: seq<Byte>)
    ensures |r| == HEADER_LEN + |s.source|
  {
    [OP_CHECK_SLN] + (BigEndian32(s.id) + (BigEndian32(s.compilerId) + (BigEndian32(|s.source|) + s.source)))
  }

  /** The packet as process_solutions builds it: the length field keeps 16 bits. */
  function Frame(s: Solution): seq<Byte> { BigEndian16(|Body(s)|) + Body(s) }

  /** The receiver of a packet: the length, then that many bytes. */
  function ReadFrame(stream: seq<Byte>): Option<(seq<Byte>, seq<Byte>)> {
    if |stream| < 2 then None
    else
      var len := Read16(stream[..2]);
      if |stream| < 2 + len then None else Some((stream[2..2 + len], stream[2 + len..]))
  }

  function Decode(body: seq<Byte>): Option<Solution> {
    if |body| < HEADER_LEN || body[0] != OP_CHECK_SLN || Read32(body[9..13]) != |body| - HEADER_LEN then None
    else Some(Solution(Read32(body[1..5]), Read32(body[5..9]), body[13..]))
  }

  lemma BodyFields(s: Solution)
    ensures var b := Body(s);
            && b[0] == OP_CHECK_SLN && b[1..5] == BigEndian32(s.id) && b[5..9] == BigEndian32(s.compilerId)
            && b[9..13] == BigEndian32(|s.source|) && b[13..] == s.source
  {
    hide BigEndian32;
    var l, c := BigEndian32(|s.source|) + s.source, BigEndian32(s.compilerId);
    var i := BigEndian32(s.id) + (c + l);
    assert Body(s) == [OP_CHECK_SLN] + i;
    assert Body(s)[1..] == i && i[..4] == BigEndian32(s.id) && i[4..] == c + l;
    assert (c + l)[..4] == c && (c + l)[4..] == l && l[..4] == BigEndian32(|s.source|) && l[4..] == s.source;
    assert Body(s)[1..5] == i[..4] && Body(s)[5..] == i[4..];
    assert Body(s)[5..9] == Body(s)[5..][..4] && Body(s)[9..] == Body(s)[5..][4..];
    assert Body(s)[9..13] == Body(s)[9..][..4] && Body(s)[13..] == Body(s)[9..][4..];
  }

  /** The bytes of n, high one first. */
  ghost predicate HighFirst(b: seq<Byte>, n: nat) {
    |b| == 4 && b[0] == n / 0x100_0000 % 0x100 && b[1] == n / 0x1_0000 % 0x100 && b[2] == n / 0x100 % 0x100 && b[3] == n % 0x100
  }

  lemma BigEndianHighFirst(n: nat)
    ensures HighFirst(BigEndian32(n), n)
  {
    assert n / 0x1_0000 / 0x100 == n / 0x100_0000;
  }

  /** The packet byte by byte: a 16-bit length, the operation 10, and the id, the compiler and the length
      of the source, each with its high byte first, and then the source. */
  lemma FrameBytes(s: Solution)
    ensures var f, n := Frame(s), |s.source|;
            && |f| == 15 + n
            && f[0] == (13 + n) / 0x100 % 0x100 && f[1] == (13 + n) % 0x100 && f[2] == 10
            && HighFirst(f[3..7], s.id) && HighFirst(f[7..11], s.compilerId) && HighFirst(f[11..15], n)
            && f[15..] == s.source
  {
    hide BigEndian32, HighFirst, Body;
    BodyFields(s);
    BigEndianHighFirst(s.id);
    BigEndianHighFirst(s.compilerId);
    BigEndianHighFirst(|s.source|);
    var b, f := Body(s), Frame(s);
    assert f[2..] == b && f[3..7] == b[1..5] && f[7..11] == b[5..9] && f[11..15] == b[9..13] && f[15..] == b[13..];
  }

  /** The receiver takes the first byte of the length as the high one. */
  lemma ReadFrameBytes(stream: seq<Byte>)
    ensures var r := ReadFrame(stream);
            && (r.None? <==> |stream| < 2 || |stream| < 2 + (0x100 * (stream[0] as int) + stream[1]))
            && (r.Some? ==> r.value.0 == stream[2..2 + (0x100 * (stream[0] as int) + stream[1])] && stream[..2] + r.value.0 + r.value.1 == stream)
  {
  }

  lemma DecodeInverts(s: Solution)
    requires Representable(s)
    ensures Decode(Body(s)) == Some(s)
  {
    hide BigEndian32, Read32, Body;
    BodyFields(s);
    Read32Inverts(s.id);
    Read32Inverts(s.compilerId);
    Read32Inverts(|s.source|);
  }

  /** One packet comes back, with whatever follows it. */
  predicate RoundTrips(s: Solution, rest: seq<Byte>) {
    var got := ReadFrame(Frame(s) + rest);
    got.Some? && Decode(got.value.0) == Some(s) && got.value.1 == rest
  }

  lemma FrameParts(s: Solution, rest: seq<Byte>)
    ensures var st := Frame(s) + rest;
            |st| == 2 + |Body(s)| + |rest| && st[..2] == BigEndian16(|Body(s)|) && st[2..] == Body(s) + rest
  {
  }

  /** A packet comes back exactly when its length fits the 16-bit length field. */
  lemma FrameRoundTrips(s: Solution, rest: seq<Byte>)
    requires Representable(s)
    ensures RoundTrips(s, rest) <==> HEADER_LEN + |s.source| < U16
  {
    hide Body, Decode, Frame, Read16, BigEndian16;
    var n := |Body(s)|;
    var st := Frame(s) + rest;
    FrameParts(s, rest);
    Read16Inverts(n);
    DecodeInverts(s);
    if n < U16 {
      assert st[2..2 + n] == st[2..][..n] && st[2 + n..] == st[2..][n..];
      assert (Body(s) + rest)[..n] == Body(s) && (Body(s) + rest)[n..] == rest;
    } else {
      // the receiver takes n mod 65536 bytes and is left with more than rest
      assert n % U16 < n;
    }
  }

  function Frames(ss: seq<Solution>): seq<Byte> {
    if ss == [] then [] else Frame(ss[0]) + Frames(ss[1..])
  }

  function ReadAll(n: nat, stream: seq<Byte>): Option<(seq<Solution>, seq<Byte>)> {
    if n == 0 then Some(([], stream))
    else
      var f := ReadFrame(stream);
      if f.None? then None
      else
        var s, more := Decode(f.value.0), ReadAll(n - 1, f.value.1);
        if s.None? || more.None? then None else Some(([s.value] + more.value.0, more.value.1))
  }

  ghost predicate Sendable(s: Solution) { Representable(s) && HEADER_LEN + |s.source| < U16 }

  /** The concatenated packets of any sequence of solutions that fit come apart again. */
  lemma {:induction false} StreamRoundTrips(ss: seq<Solution>, rest: seq<Byte>)
    requires forall i | 0 <= i < |ss| :: Sendable(ss[i])
    ensures ReadAll(|ss|, Frames(ss) + rest) == Some((ss, rest))
  {
    hide ReadFrame, Decode, Frame;
    if ss == [] {
      assert Frames(ss) + rest == rest;
    } else {
      var more := Frames(ss[1..]) + rest;
      assert Sendable(ss[0]);
      FrameRoundTrips(ss[0], more);
      assert Frames(ss) + rest == Frame(ss[0]) + more;
      StreamRoundTrips(ss[1..], rest);
      assert ss == [ss[0]] + ss[1..];
    }
  }

  // ---- transfer_all ----

  /** A byte stream; `wish(i)` is what the i-th call of send or recv would transfer, so that an
      arbitrary function stands for an arbitrary environment. */
  type Wish = nat -> int

  function Min(a: int, b: int): int { if a <= b then a else b }

  lemma Recut(a: seq<Byte>, b: seq<Byte>, k: nat)
    requires k <= |b|
    ensures a + b == (a + b[..k]) + b[k..]
  {
  }

  class Wire {
    var bytes: seq<Byte>

    constructor ()
      ensures bytes == []
    {
      bytes := [];
    }

    /** transfer_all with do_send. */
    method SendAll(data: seq<Byte>, wish: Wish) returns (r: int)
      modifies this
      ensures r == |data| || r <= 0
      ensures (forall i :: wish(i) > 0) ==> r == |data|
      ensures r == |data| ==> bytes == old(bytes) + data
      ensures r != |data| ==> exists k | 0 <= k < |data| :: bytes == old(bytes) + data[..k]
    {
      var done, calls := 0, 0;
      assert data[..0] == [];
      while done < |data|
        invariant done <= |data| && bytes == old(bytes) + data[..done]
        decreases |data| - done
      {
        var transferred := Min(wish(calls), |data| - done);
        if transferred <= 0 {
          return transferred;
        }
        bytes := bytes + data[done..done + transferred];
        assert data[..done] + data[done..done + transferred] == data[..done + transferred];
        done, calls := done + transferred, calls + 1;
      }
      assert data[..done] == data;
      return done;
    }

    /** transfer_all with recv: no call takes more than has arrived, and none waits for ever. */
    method RecvAll(len: nat, wish: Wish) returns (r: int, data: seq<Byte>)
      modifies this
      ensures r == len || r <= 0
      ensures (forall i :: wish(i) > 0) && len <= |old(bytes)| ==> r == len
      ensures old(bytes) == data + bytes
      ensures r == len ==> |data| == len
      ensures r != len ==> |data| < len
    {
      data := [];
      var calls := 0;
      while |data| < len
        invariant |data| <= len && old(bytes) == data + bytes
        decreases len - |data|
      {
        var transferred := Min(wish(calls), Min(len - |data|, |bytes|));
        if transferred <= 0 {
          return transferred, data;
        }
        Recut(data, bytes, transferred);
        data, bytes := data + bytes[..transferred], bytes[transferred..];
        calls := calls + 1;
      }
      return len, data;
    }

    /** Lines 176 to 207 of client_loop: the length, then the body; None is a broken packet. */
    method ReceivePacket(wish: Wish, wishBody: Wish) returns (body: Option<seq<Byte>>)
      modifies this
      ensures body.Some? ==> ReadFrame(old(bytes)) == Some((body.value, bytes))
      ensures (forall i :: wish(i) > 0) && (forall i :: wishBody(i) > 0) && ReadFrame(old(bytes)).Some? ==> body.Some?
    {
      var r, header := RecvAll(2, wish);
      if r <= 0 { return None; }
      ghost var rest := bytes;
      var len := Read16(header);
      var got, data := RecvAll(len, wishBody);
      assert old(bytes)[..2] == header && old(bytes)[2..] == rest;
      if got != len { return None; }
      assert rest[..len] == data && rest[len..] == bytes;
      assert old(bytes)[2..2 + len] == rest[..len] && old(bytes)[2 + len..] == rest[len..];
      return Some(data);
    }
  }

  /** Sending any solutions and receiving them, with sends and receives cut up in any way that
      does not fail: the same solutions come out, in order, and nothing is left over. */
  method Deliver(ss: seq<Solution>, sendWish: nat -> Wish, recvWish: nat -> Wish) returns (got: seq<Solution>)
    requires forall i | 0 <= i < |ss| :: Sendable(ss[i])
    requires forall i, j :: sendWish(i)(j) > 0 && recvWish(i)(j) > 0
    ensures got == ss
  {
    hide Frame, Body, ReadFrame, Decode;
    var wire := new Wire();
    var i := 0;
    assert ss[..0] == [] && Frames([]) == [];
    while i < |ss|
      invariant i <= |ss| && wire.bytes == Frames(ss[..i])
    {
      var r := wire.SendAll(Frame(ss[i]), sendWish(i));
      FramesAppend(ss[..i], ss[i]);
      assert ss[..i + 1] == ss[..i] + [ss[i]];
      i := i + 1;
    }
    got := [];
    assert ss[..i] == ss && ss[0..] == ss;
    while |got| < |ss|
      invariant |got| <= |ss| && got == ss[..|got|] && wire.bytes == Frames(ss[|got|..])
      decreases |ss| - |got|
    {
      var k := |got|;
      assert ss[k..][0] == ss[k] && ss[k..][1..] == ss[k + 1..] && Sendable(ss[k]);
      FrameRoundTrips(ss[k], Frames(ss[k + 1..]));
      var body := wire.ReceivePacket(recvWish(2 * k), recvWish(2 * k + 1));
      got := got + [Decode(body.value).value];
      assert got == ss[..k] + [ss[k]];
    }
  }

  lemma {:induction false} FramesAppend(a: seq<Solution>, s: Solution)
    ensures Frames(a + [s]) == Frames(a) + Frame(s)
  {
    hide Frame;
    if a == [] {
      assert a + [s] == [s] && [s][1..] == [];
    } else {
      FramesAppend(a[1..], s);
      assert (a + [s])[1..] == a[1..] + [s];
    }
  }
}
