/** packFields and unpackFields of src/identity/introduction-session.ts, on bytes. */
module FieldPacking {
  import opened Basics

  /** A 16 bit big endian number; a larger one wraps, as setUint16 does. */
  function U16(n: nat): Bytes {
    [(n / 256 % 256) as byte, (n % 256) as byte]
  }

  function ReadU16(b: Bytes): nat
    requires |b| >= 2
  {
    b[0] as nat * 256 + b[1] as nat
  }

  lemma U16Wraps(n: nat)
    ensures ReadU16(U16(n)) == n % 65536
  {
  }

  function Pack(fields: seq<Bytes>): Bytes {
    if fields == [] then [] else U16(|fields[0]|) + fields[0] + Pack(fields[1..])
  }

  function Onto(out: seq<Bytes>, r: Option<seq<Bytes>>): Option<seq<Bytes>> {
    if r.Some? then Some(out + r.value) else None
  }

  lemma OntoOnto(out: seq<Bytes>, f: Bytes, r: Option<seq<Bytes>>)
    ensures Onto([], r) == r
    ensures Onto(out, Onto([f], r)) == Onto(out + [f], r)
  {
    if r.Some? {
      assert [] + r.value == r.value;
      assert out + ([f] + r.value) == out + [f] + r.value;
    }
  }

  /** The first `count` fields of a frame, or nothing when it is truncated. */
  function Unpack(frame: Bytes, count: nat): Option<seq<Bytes>> {
    if count == 0 then Some([])
    else if |frame| < 2 || |frame| < 2 + ReadU16(frame) then None
    else Onto([frame[2..2 + ReadU16(frame)]], Unpack(frame[2 + ReadU16(frame)..], count - 1))
  }

  predicate Packable(fields: seq<Bytes>) {
    forall i :: 0 <= i < |fields| ==> |fields[i]| < 65536
  }

  /** A frame that starts with a short field unpacks to that field first. */
  lemma UnpackFirst(f: Bytes, rest: Bytes, count: nat)
    requires |f| < 65536 && count > 0
    ensures Unpack(U16(|f|) + f + rest, count) == Onto([f], Unpack(rest, count - 1))
  {
    var frame := U16(|f|) + f + rest;
    U16Wraps(|f|);
    assert frame[0] == U16(|f|)[0] && frame[1] == U16(|f|)[1];
    assert ReadU16(frame) == |f|;
    assert frame[2 + |f|..] == rest;
    assert frame[2..2 + |f|] == f;
  }

  lemma UnpackedAreShort(frame: Bytes, count: nat)
    requires count > 0 && Unpack(frame, count).Some?
    ensures |Unpack(frame, count).value| == count
    ensures |Unpack(frame, count).value[0]| < 65536
    decreases count
  {
    if count > 1 {
      UnpackedAreShort(frame[2 + ReadU16(frame)..], count - 1);
    }
  }

  lemma OntoExact(f: Bytes, r: Option<seq<Bytes>>, fields: seq<Bytes>)
    requires fields != [] && fields[0] == f
    ensures Onto([f], r) == Some(fields) <==> r == Some(fields[1..])
  {
    if r.Some? && [f] + r.value == fields {
      assert r.value == ([f] + r.value)[1..];
    }
    if r == Some(fields[1..]) {
      assert [f] + r.value == fields;
    }
  }

  /** Unpacking gives back what was packed, whatever follows it in the frame, if
      and only if every field is shorter than 65536 bytes. */
  lemma {:induction false} UnpackPack(fields: seq<Bytes>, rest: Bytes)
    ensures Unpack(Pack(fields) + rest, |fields|) == Some(fields) <==> Packable(fields)
    decreases |fields|
  {
    if fields != [] {
      var f, others := fields[0], fields[1..];
      PackableSplit(fields);
      if |f| < 65536 {
        assert Pack(fields) + rest == U16(|f|) + f + (Pack(others) + rest);
        UnpackFirst(f, Pack(others) + rest, |fields|);
        UnpackPack(others, rest);
        OntoExact(f, Unpack(Pack(others) + rest, |others|), fields);
      } else if Unpack(Pack(fields) + rest, |fields|).Some? {
        UnpackedAreShort(Pack(fields) + rest, |fields|);
      }
    }
  }

  lemma PackableSplit(fields: seq<Bytes>)
    requires fields != []
    ensures Packable(fields) <==> |fields[0]| < 65536 && Packable(fields[1..])
  {
    if |fields[0]| < 65536 && Packable(fields[1..]) {
      forall i | 0 <= i < |fields| ensures |fields[i]| < 65536 {
        if i > 0 { assert fields[i] == fields[1..][i - 1]; }
      }
    }
  }

  method PackFields(fields: seq<Bytes>) returns (out: Bytes)
    ensures out == Pack(fields)
  {
    out := [];
    for i := 0 to |fields|
      invariant out + Pack(fields[i..]) == Pack(fields)
    {
      assert fields[i..][1..] == fields[i + 1..];
      out := out + (U16(|fields[i]|) + fields[i]);
    }
  }

  method UnpackFields(frame: Bytes, count: nat) returns (r: Option<seq<Bytes>>)
    ensures r == Unpack(frame, count)
  {
    var out: seq<Bytes> := [];
    var offset: nat := 0;
    assert frame[0..] == frame;
    OntoOnto([], [], Unpack(frame, count));
    for i := 0 to count
      invariant offset <= |frame| && |out| == i
      invariant Unpack(frame, count) == Onto(out, Unpack(frame[offset..], count - i))
    {
      if offset + 2 > |frame| { return None; }
      var length := ReadU16(frame[offset..offset + 2]);
      ghost var here := frame[offset..];
      assert here[0] == frame[offset] && here[1] == frame[offset + 1] && ReadU16(here) == length;
      if offset + 2 + length > |frame| { return None; }
      assert here[2..2 + length] == frame[offset + 2..offset + 2 + length];
      assert here[2 + length..] == frame[offset + 2 + length..];
      OntoOnto(out, frame[offset + 2..offset + 2 + length], Unpack(frame[offset + 2 + length..], count - i - 1));
      out := out + [frame[offset + 2..offset + 2 + length]];
      offset := offset + 2 + length;
    }
    assert out + [] == out;
    return Some(out);
  }
}
