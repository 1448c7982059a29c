/**
 Wire framing (transport.py) and the nine-tensor payload of an expert transfer
 (migration.py, node.py). Reads may return fewer bytes than asked.
 */
module Transport {
  import opened Common

  type Byte = x: int | 0 <= x < 256

  const U32: int := 0x1_0000_0000

  function Pack(n: nat): seq<Byte>
    requires n < U32
  {
    [n / 0x100_0000, n / 0x1_0000 % 256, n / 256 % 256, n % 256]
  }

  function Unpack(b: seq<Byte>): nat
    requires |b| == 4
  {
    (b[0] as int) * 0x100_0000 + (b[1] as int) * 0x1_0000 + (b[2] as int) * 256 + b[3] as int
  }

  lemma PackUnpack(n: nat)
    requires n < U32
    ensures |Pack(n)| == 4 && Unpack(Pack(n)) == n
  {
  }

  /** The number a list of bytes spells, most significant first. */
  function Spelled(b: seq<Byte>): nat {
    if b == [] then 0 else Spelled(b[..|b| - 1]) * 256 + b[|b| - 1] as int
  }

  lemma UnpackIsSpelled(b: seq<Byte>)
    requires |b| == 4
    ensures Unpack(b) == Spelled(b)
  {
    assert b[..3][..2] == b[..2] && b[..2][..1] == b[..1] && b[..1][..0] == [];
    assert Spelled(b[..1]) == b[0] as int;
    assert Spelled(b[..2]) == b[0] as int * 256 + b[1] as int;
    assert Spelled(b[..3]) == (b[0] as int * 256 + b[1] as int) * 256 + b[2] as int;
  }

  /** A length goes out as four bytes, most significant first. */
  lemma PackIsBigEndian(n: nat)
    requires n < U32
    ensures |Pack(n)| == 4 && Spelled(Pack(n)) == n
  {
    PackUnpack(n);
    UnpackIsSpelled(Pack(n));
  }

  /** [u32 length][message][u32 length][tensor] */
  function Frame(msg: seq<Byte>, tensor: seq<Byte>): seq<Byte>
    requires |msg| < U32 && |tensor| < U32
  {
    Pack(|msg|) + msg + Pack(|tensor|) + tensor
  }

  datatype Parsed = Parsed(body: seq<Byte>, rest: seq<Byte>)

  /** One length-prefixed part, or None if the bytes run out. */
  function ParsePart(b: seq<Byte>): Option<Parsed> {
    if |b| < 4 then None
    else
      var n := Unpack(b[..4]);
      if |b| < 4 + n then None else Some(Parsed(b[4..4 + n], b[4 + n..]))
  }

  datatype Message = Message(msg: seq<Byte>, tensor: seq<Byte>, rest: seq<Byte>)

  function ParseFrame(b: seq<Byte>): Option<Message> {
    var m := ParsePart(b);
    if m.None? then None
    else
      var t := ParsePart(m.value.rest);
      if t.None? then None else Some(Message(m.value.body, t.value.body, t.value.rest))
  }

  lemma PartRoundTrip(body: seq<Byte>, rest: seq<Byte>)
    requires |body| < U32
    ensures ParsePart(Pack(|body|) + body + rest) == Some(Parsed(body, rest))
  {
    var b := Pack(|body|) + body + rest;
    PackUnpack(|body|);
    assert b[..4] == Pack(|body|);
    assert b[4..4 + |body|] == body;
    assert b[4 + |body|..] == rest;
  }

  /** Reading a written frame gives it back and leaves exactly what follows it. */
  lemma FrameRoundTrip(msg: seq<Byte>, tensor: seq<Byte>, rest: seq<Byte>)
    requires |msg| < U32 && |tensor| < U32
    ensures ParseFrame(Frame(msg, tensor) + rest) == Some(Message(msg, tensor, rest))
  {
    var tail := Pack(|tensor|) + tensor + rest;
    assert Frame(msg, tensor) + rest == Pack(|msg|) + msg + tail;
    PartRoundTrip(msg, tail);
    PartRoundTrip(tensor, rest);
  }

  /** The bytes of a frame by position. */
  lemma FrameLayout(msg: seq<Byte>, tensor: seq<Byte>)
    requires |msg| < U32 && |tensor| < U32
    ensures var f, m := Frame(msg, tensor), 4 + |msg|;
            && |f| == m + 4 + |tensor|
            && Spelled(f[..4]) == |msg| && f[4..m] == msg
            && Spelled(f[m..m + 4]) == |tensor| && f[m + 4..] == tensor
  {
    var f, m := Frame(msg, tensor), 4 + |msg|;
    PackIsBigEndian(|msg|);
    PackIsBigEndian(|tensor|);
    assert f[..4] == Pack(|msg|) && f[m..m + 4] == Pack(|tensor|);
  }

  lemma PartTruncated(body: seq<Byte>, k: nat)
    requires |body| < U32 && k < 4 + |body|
    ensures ParsePart((Pack(|body|) + body)[..k]).None?
  {
    var cut := (Pack(|body|) + body)[..k];
    PackUnpack(|body|);
    if k >= 4 { assert cut[..4] == Pack(|body|); }
  }

  /** Cutting a frame anywhere before its end is detected. */
  lemma TruncationDetected(msg: seq<Byte>, tensor: seq<Byte>, k: nat)
    requires |msg| < U32 && |tensor| < U32 && k < |Frame(msg, tensor)|
    ensures ParseFrame(Frame(msg, tensor)[..k]).None?
  {
    var head, tail := Pack(|msg|) + msg, Pack(|tensor|) + tensor;
    assert Frame(msg, tensor) == head + tail;
    if k < |head| {
      assert Frame(msg, tensor)[..k] == head[..k];
      PartTruncated(msg, k);
    } else {
      assert Frame(msg, tensor)[..k] == Pack(|msg|) + msg + tail[..k - |head|];
      PartRoundTrip(msg, tail[..k - |head|]);
      PartTruncated(tensor, k - |head|);
    }
  }

  /** A byte stream; `sizes` decides how much each read hands over. */
  class Stream {
    var data: seq<Byte>
    var readCount: nat
    const sizes: nat -> nat

    constructor (data: seq<Byte>, sizes: nat -> nat)
      ensures this.data == data && this.sizes == sizes
    {
      this.data, this.sizes, readCount := data, sizes, 0;
    }

    /** Between one and n bytes, none only at the end. */
    method Read(n: nat) returns (chunk: seq<Byte>)
      requires n > 0
      modifies this
      ensures old(data) == chunk + data && |chunk| <= n
      ensures chunk == [] <==> old(data) == []
    {
      if data == [] { return []; }
      var k := 1 + sizes(readCount) % Min(n, |data|);
      readCount := readCount + 1;
      chunk, data := data[..k], data[k..];
    }

    method ReadExact(n: nat) returns (r: Option<seq<Byte>>)
      modifies this
      ensures |old(data)| >= n ==> r == Some(old(data)[..n]) && data == old(data)[n..]
      ensures |old(data)| < n ==> r == None && data == []
    {
      var buf: seq<Byte> := [];
      while |buf| < n
        invariant |buf| <= n && old(data) == buf + data
        decreases n - |buf|
      {
        var chunk := Read(n - |buf|);
        if chunk == [] { return None; }
        buf := buf + chunk;
      }
      r := Some(buf);
    }

    /** A part of length zero is not read at all, which changes nothing. */
    method ReadPart() returns (r: Option<seq<Byte>>)
      modifies this
      ensures var p := ParsePart(old(data));
              && (p.Some? ==> r == Some(p.value.body) && data == p.value.rest)
              && (p.None? ==> r == None)
    {
      var head := ReadExact(4);
      if head.None? { return None; }
      var n := Unpack(head.value);
      assert old(data)[..4] == head.value;
      if n == 0 {
        assert old(data)[4..4] == [];
        return Some([]);
      }
      assert |old(data)| >= 4 + n ==>
               old(data)[4..][..n] == old(data)[4..4 + n] && old(data)[4..][n..] == old(data)[4 + n..];
      r := ReadExact(n);
    }

    method ReadFrame() returns (r: Option<(seq<Byte>, seq<Byte>)>)
      modifies this
      ensures var f := ParseFrame(old(data));
              && (f.Some? ==> r == Some((f.value.msg, f.value.tensor)) && data == f.value.rest)
              && (f.None? ==> r == None)
    {
      var msg := ReadPart();
      if msg.None? { return None; }
      var tensor := ReadPart();
      if tensor.None? { return None; }
      r := Some((msg.value, tensor.value));
    }

    /** Full writes; a length that does not fit 32 bits cannot be packed. */
    method WriteFrame(msg: seq<Byte>, tensor: seq<Byte>)
      requires |msg| < U32 && |tensor| < U32
      modifies this`data
      ensures data == old(data) + Frame(msg, tensor)
    {
      data := data + Pack(|msg|);
      if msg != [] { data := data + msg; }
      data := data + Pack(|tensor|);
      if tensor != [] { data := data + tensor; }
      assert data == old(data) + (Pack(|msg|) + msg + Pack(|tensor|) + tensor);
    }
  }

  // ------------------------------------------------------- tensor payloads

  function Concat(blobs: seq<seq<Byte>>): seq<Byte> {
    if blobs == [] then [] else blobs[0] + Concat(blobs[1..])
  }

  function Counts(blobs: seq<seq<Byte>>): (r: seq<nat>)
    ensures |r| == |blobs| && forall i :: 0 <= i < |blobs| ==> r[i] == |blobs[i]|
  {
    seq(|blobs|, i requires 0 <= i < |blobs| => |blobs[i]|)
  }

  /** Cut the payload by the declared byte counts. */
  function Cut(payload: seq<Byte>, counts: seq<nat>): (blobs: Option<seq<seq<Byte>>>)
    ensures blobs.Some? ==> |blobs.value| == |counts|
  {
    if counts == [] then (if payload == [] then Some([]) else None)
    else if |payload| < counts[0] then None
    else
      var rest := Cut(payload[counts[0]..], counts[1..]);
      if rest.None? then None else Some([payload[..counts[0]]] + rest.value)
  }

  lemma CutFirst(first: seq<Byte>, tail: seq<Byte>, counts: seq<nat>, rest: seq<seq<Byte>>)
    requires Cut(tail, counts) == Some(rest)
    ensures Cut(first + tail, [|first|] + counts) == Some([first] + rest)
  {
    var payload, all := first + tail, [|first|] + counts;
    assert payload[..|first|] == first && payload[|first|..] == tail && all[1..] == counts;
  }

  lemma {:induction false} CutOfJoin(blobs: seq<seq<Byte>>)
    ensures Cut(Concat(blobs), Counts(blobs)) == Some(blobs)
  {
    if blobs != [] {
      var first, rest := blobs[0], blobs[1..];
      CutOfJoin(rest);
      CutFirst(first, Concat(rest), Counts(rest), rest);
      assert Counts(blobs) == [|first|] + Counts(rest);
      assert blobs == [first] + rest;
    }
  }

  lemma {:induction false} JoinOfCut(payload: seq<Byte>, counts: seq<nat>)
    requires Cut(payload, counts).Some?
    ensures payload == Concat(Cut(payload, counts).value) && Counts(Cut(payload, counts).value) == counts
  {
    if counts != [] {
      JoinOfCut(payload[counts[0]..], counts[1..]);
      var blobs := Cut(payload, counts).value;
      assert blobs[1..] == Cut(payload[counts[0]..], counts[1..]).value;
      assert payload == payload[..counts[0]] + payload[counts[0]..];
      assert |Counts(blobs)| == |counts| && Counts(blobs)[0] == counts[0];
      assert Counts(blobs)[1..] == Counts(blobs[1..]);
    }
  }

  /** Cutting succeeds exactly on payloads that are the concatenation of blobs of the declared sizes. */
  lemma CutIffJoin(payload: seq<Byte>, counts: seq<nat>, blobs: seq<seq<Byte>>)
    ensures Cut(payload, counts) == Some(blobs) <==> payload == Concat(blobs) && Counts(blobs) == counts
  {
    CutOfJoin(blobs);
    if Cut(payload, counts).Some? { JoinOfCut(payload, counts); }
  }

  function Prefixed(out: seq<seq<Byte>>, rest: Option<seq<seq<Byte>>>): Option<seq<seq<Byte>>> {
    if rest.None? then None else Some(out + rest.value)
  }

  /** The receiving loop: exactly nine descriptors, a running offset, no short blob, no trailing bytes. */
  method SplitPayload(payload: seq<Byte>, tensorCount: int, counts: seq<nat>) returns (r: Option<seq<seq<Byte>>>)
    ensures r == if tensorCount == 9 && |counts| == 9 then Cut(payload, counts) else None
  {
    if tensorCount != 9 || |counts| != 9 { return None; }
    var offset, out: seq<seq<Byte>> := 0, [];
    assert payload[0..] == payload && counts[0..] == counts;
    assert Cut(payload, counts).Some? ==> [] + Cut(payload, counts).value == Cut(payload, counts).value;
    for i := 0 to |counts|
      invariant 0 <= offset <= |payload|
      invariant Cut(payload, counts) == Prefixed(out, Cut(payload[offset..], counts[i..]))
    {
      assert counts[i..][0] == counts[i] && counts[i..][1..] == counts[i + 1..];
      if offset + counts[i] > |payload| { return None; }
      assert payload[offset..][..counts[i]] == payload[offset..offset + counts[i]];
      assert payload[offset..][counts[i]..] == payload[offset + counts[i]..];
      ghost var rest := Cut(payload[offset + counts[i]..], counts[i + 1..]);
      ghost var blob := payload[offset..offset + counts[i]];
      assert rest.Some? ==> out + ([blob] + rest.value) == (out + [blob]) + rest.value;
      out := out + [payload[offset..offset + counts[i]]];
      offset := offset + counts[i];
    }
    if offset != |payload| { return None; }
    assert out + [] == out;
    r := Some(out);
  }
}
