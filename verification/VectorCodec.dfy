/** Vectors as stored (internal/memory/store.go): 32-bit float patterns, least significant byte first. */
module VectorCodec {
  import opened Wrappers

  type Byte = x: int | 0 <= x < 0x100
  type Word = x: int | 0 <= x < 0x1_0000_0000    // math.Float32bits

  function WordBytes(w: Word): (b: seq<Byte>)
    ensures |b| == 4
  {
    [w % 0x100, w / 0x100 % 0x100, w / 0x1_0000 % 0x100, w / 0x100_0000]
  }

  function BytesWord(b: seq<Byte>): Word
    requires |b| == 4
  {
    var b0: int, b1: int, b2: int, b3: int := b[0], b[1], b[2], b[3];
    b0 + 0x100 * b1 + 0x1_0000 * b2 + 0x100_0000 * b3
  }

  lemma WordRoundTrip(w: Word)
    ensures BytesWord(WordBytes(w)) == w
  {
    var v: int := w;
    var a, b, c := v / 0x100, v / 0x1_0000, v / 0x100_0000;
    assert v == 0x100 * a + v % 0x100;
    assert b == a / 0x100 && a == 0x100 * b + a % 0x100;
    assert c == b / 0x100 && b == 0x100 * c + b % 0x100;
  }

  lemma BytesRoundTrip(b: seq<Byte>)
    requires |b| == 4
    ensures WordBytes(BytesWord(b)) == b
  {
    var w: int, b1: int, b2: int, b3: int := BytesWord(b), b[1], b[2], b[3];
    assert w / 0x100 == b1 + 0x100 * b2 + 0x1_0000 * b3;
    assert w / 0x1_0000 == b2 + 0x100 * b3;
    assert w / 0x100_0000 == b3;
  }

  function Encoded(v: seq<Word>): (raw: seq<Byte>)
    ensures |raw| == 4 * |v|
  {
    if v == [] then [] else Encoded(v[..|v| - 1]) + WordBytes(v[|v| - 1])
  }

  function Words(raw: seq<Byte>, dim: nat): (v: seq<Word>)
    requires |raw| == 4 * dim
    ensures |v| == dim
  {
    if dim == 0 then [] else Words(raw[..4 * (dim - 1)], dim - 1) + [BytesWord(raw[4 * (dim - 1)..])]
  }

  /** None is an error: the blob does not have the stored dimension. */
  function Decoded(raw: seq<Byte>, dim: int): Option<seq<Word>> {
    if |raw| != 4 * dim then None else Some(Words(raw, dim))
  }

  method EncodeVector(v: seq<Word>) returns (out: array<Byte>)
    ensures fresh(out) && out[..] == Encoded(v)
  {
    out := new Byte[4 * |v|];
    for i := 0 to |v|
      invariant out[..4 * i] == Encoded(v[..i])
    {
      PutWord(out, 4 * i, v[i]);
      assert v[..i + 1][..i] == v[..i];
    }
    assert v[..|v|] == v;
    assert out[..4 * |v|] == out[..];
  }

  /** binary.LittleEndian.PutUint32. */
  method PutWord(out: array<Byte>, at: nat, w: Word)
    requires at + 4 <= out.Length
    modifies out
    ensures out[..at + 4] == old(out[..at]) + WordBytes(w)
    ensures out[at + 4..] == old(out[at + 4..])
  {
    var b := WordBytes(w);
    out[at], out[at + 1], out[at + 2], out[at + 3] := b[0], b[1], b[2], b[3];
  }

  method DecodeVector(raw: seq<Byte>, dim: int) returns (r: Option<seq<Word>>)
    ensures r == Decoded(raw, dim)
  {
    if |raw| != 4 * dim {
      return None;
    }
    var out: seq<Word> := [];
    for i := 0 to dim
      invariant out == Words(raw[..4 * i], i)
    {
      assert raw[..4 * (i + 1)][..4 * i] == raw[..4 * i];
      assert raw[..4 * (i + 1)][4 * i..] == raw[4 * i..4 * i + 4];
      out := out + [BytesWord(raw[4 * i..4 * i + 4])];
    }
    assert raw[..4 * dim] == raw;
    r := Some(out);
  }

  lemma AppendWord(raw: seq<Byte>, n: nat, w: Word)
    requires |raw| == 4 * n
    ensures Words(raw + WordBytes(w), n + 1) == Words(raw, n) + [w]
  {
    WordRoundTrip(w);
    var more := raw + WordBytes(w);
    assert more[..4 * n] == raw && more[4 * n..] == WordBytes(w);
  }

  /** A vector reads back as it was stored under its own dimension, and under no other. */
  lemma {:induction false} VectorRoundTrip(v: seq<Word>, dim: int)
    ensures Decoded(Encoded(v), dim) == if dim == |v| then Some(v) else None
  {
    if v != [] && dim == |v| {
      var n := |v| - 1;
      VectorRoundTrip(v[..n], n);
      AppendWord(Encoded(v[..n]), n, v[n]);
      assert v == v[..n] + [v[n]];
    }
  }

  /** Every blob that decodes is the encoding of what it decodes to. */
  lemma {:induction false} BlobRoundTrip(raw: seq<Byte>, dim: int)
    requires Decoded(raw, dim).Some?
    ensures Encoded(Decoded(raw, dim).value) == raw
    decreases dim
  {
    if dim > 0 {
      var front, last := raw[..4 * (dim - 1)], raw[4 * (dim - 1)..];
      BlobRoundTrip(front, dim - 1);
      BytesRoundTrip(last);
      assert Words(raw, dim)[..dim - 1] == Words(front, dim - 1);
      assert raw == front + last;
    }
  }
}
