/** The handshake's cryptographic core (internal/pairing/crypto.go) in a free algebra:
    a byte string is a sequence of atoms, and the output of a hash, a key derivation, a MAC
    or a key agreement is one atom that remembers its inputs.  Distinct inputs therefore give
    distinct outputs, and two Diffie-Hellman shares agree exactly when the pair of secrets does. */
module Crypto {
  datatype Atom =
    | Byte(value: nat)
    | Point(secret: nat)                     // an uncompressed P-256 point
    | Shared(low: nat, high: nat)            // an ECDH output
    | Sha(input: Bytes)
    | Hkdf(material: Bytes, salt: Bytes, info: Bytes)
    | Hmac(key: Bytes, text: Bytes)

  type Bytes = seq<Atom>

  const UINT32_RANGE := 0x1_0000_0000
  const NONCE_LEN := 16

  function AtomWidth(a: Atom): (w: nat)
    ensures w >= 1
  {
    match a
    case Byte(_) => 1
    case Point(_) => 65
    case _ => 32
  }

  /** Length in bytes. */
  function Width(m: Bytes): nat {
    if m == [] then 0 else AtomWidth(m[0]) + Width(m[1..])
  }

  lemma {:induction false} WidthAppend(a: Bytes, b: Bytes)
    ensures Width(a + b) == Width(a) + Width(b)
  {
    if a == [] {
      assert a + b == b;
    } else {
      assert (a + b)[1..] == a[1..] + b;
      WidthAppend(a[1..], b);
    }
  }

  function Ascii(s: string): (m: Bytes)
    ensures |m| == |s| && forall i :: 0 <= i < |s| ==> m[i] == Byte(s[i] as nat)
  {
    seq(|s|, i requires 0 <= i < |s| => Byte(s[i] as nat))
  }

  // ----- key agreement -----

  function PublicKey(secret: nat): Bytes {
    [Point(secret)]
  }

  function Ecdh(secret: nat, peer: nat): Bytes {
    [if secret <= peer then Shared(secret, peer) else Shared(peer, secret)]
  }

  lemma EcdhCommutes(a: nat, b: nat)
    ensures Ecdh(a, b) == Ecdh(b, a)
  {
  }

  // ----- transcript -----

  datatype Transcript = Transcript(
    appId: Bytes, nodeId: Bytes, appEph: Bytes, nodeEph: Bytes,
    appNonce: Bytes, nodeNonce: Bytes, assertionSha: Bytes)
  {
    function Fields(): seq<Bytes> {
      [appId, nodeId, appEph, nodeEph, appNonce, nodeNonce, assertionSha]
    }

    /** Each field fits the four-byte length that precedes it. */
    ghost predicate Fits() {
      forall f :: f in Fields() ==> Width(f) < UINT32_RANGE
    }
  }

  function BigEndian32(n: nat): (m: Bytes)
    ensures |m| == 4
  {
    var low := n / 0x100;
    var middle := low / 0x100;
    var high := middle / 0x100;
    [Byte(high % 0x100), Byte(middle % 0x100), Byte(low % 0x100), Byte(n % 0x100)]
  }

  /** A Go length converted to uint32 wraps. */
  function LengthPrefixed(f: Bytes): Bytes {
    BigEndian32(Width(f) % UINT32_RANGE) + f
  }

  function Serialized(fields: seq<Bytes>): Bytes {
    if fields == [] then [] else Serialized(fields[..|fields| - 1]) + LengthPrefixed(fields[|fields| - 1])
  }

  function TranscriptHash(t: Transcript): Bytes {
    [Sha(Serialized(t.Fields()))]
  }

  method HashTranscript(t: Transcript) returns (digest: Bytes)
    ensures digest == TranscriptHash(t)
  {
    var written: Bytes := [];
    var fields := t.Fields();
    for i := 0 to |fields|
      invariant written == Serialized(fields[..i])
    {
      assert fields[..i + 1][..i] == fields[..i];
      written := written + BigEndian32(Width(fields[i]) % UINT32_RANGE);
      written := written + fields[i];
      assert Serialized(fields[..i + 1]) == Serialized(fields[..i]) + LengthPrefixed(fields[i]);
    }
    assert fields[..|fields|] == fields;
    digest := [Sha(written)];
  }

  lemma BigEndian32Injective(a: nat, b: nat)
    requires a < UINT32_RANGE && b < UINT32_RANGE
    requires BigEndian32(a) == BigEndian32(b)
    ensures a == b
  {
    var x, y := BigEndian32(a), BigEndian32(b);
    assert x[0] == y[0] && x[1] == y[1] && x[2] == y[2] && x[3] == y[3];
  }

  /** Two field strings of one byte length, each followed by something, split the same way. */
  lemma {:induction false} SplitAtWidth(f: Bytes, rest: Bytes, g: Bytes, rest': Bytes)
    requires f + rest == g + rest' && Width(f) == Width(g)
    ensures f == g && rest == rest'
  {
    if f == [] || g == [] {
      assert f == [] && g == [];
      assert f + rest == rest && g + rest' == rest';
    } else {
      assert f[0] == (f + rest)[0] == (g + rest')[0] == g[0];
      assert f[1..] + rest == (f + rest)[1..] == (g + rest')[1..] == g[1..] + rest';
      SplitAtWidth(f[1..], rest, g[1..], rest');
      assert f == [f[0]] + f[1..] && g == [g[0]] + g[1..];
    }
  }

  /** The same serialisation read from its first field. */
  lemma {:induction false} SerializedHead(fields: seq<Bytes>)
    requires fields != []
    ensures Serialized(fields) == LengthPrefixed(fields[0]) + Serialized(fields[1..])
  {
    var n := |fields| - 1;
    if n > 0 {
      SerializedHead(fields[..n]);
      assert fields[..n][1..] == fields[1..][..n - 1];
    }
  }

  lemma HeadsSplit(p: Bytes, f: Bytes, s: Bytes, q: Bytes, g: Bytes, t: Bytes)
    requires |p| == |q| && p + f + s == q + g + t
    ensures p == q && f + s == g + t
  {
    var whole := p + f + s;
    assert p == whole[..|p|] && q == whole[..|q|];
    assert f + s == whole[|p|..] && g + t == whole[|q|..];
  }

  lemma UnwrappedLength(f: Bytes)
    requires Width(f) < UINT32_RANGE
    ensures LengthPrefixed(f) == BigEndian32(Width(f)) + f
  {
    assert Width(f) % UINT32_RANGE == Width(f);
  }

  lemma PrefixedSplits(f: Bytes, s: Bytes, g: Bytes, t: Bytes)
    requires Width(f) < UINT32_RANGE && Width(g) < UINT32_RANGE
    requires LengthPrefixed(f) + s == LengthPrefixed(g) + t
    ensures f == g && s == t
  {
    UnwrappedLength(f);
    UnwrappedLength(g);
    var m, n := Width(f), Width(g);
    var p, q := BigEndian32(m), BigEndian32(n);
    HeadsSplit(p, f, s, q, g, t);
    assert m == n by {
      BigEndian32Injective(m, n);
    }
    SplitAtWidth(f, s, g, t);
  }

  /** No two lists of the same number of fields serialise alike. */
  lemma {:induction false} SerializedInjective(fs: seq<Bytes>, gs: seq<Bytes>)
    requires |fs| == |gs| && Serialized(fs) == Serialized(gs)
    requires forall i :: 0 <= i < |fs| ==> Width(fs[i]) < UINT32_RANGE && Width(gs[i]) < UINT32_RANGE
    ensures fs == gs
  {
    if fs != [] {
      SerializedHead(fs);
      SerializedHead(gs);
      PrefixedSplits(fs[0], Serialized(fs[1..]), gs[0], Serialized(gs[1..]));
      SerializedInjective(fs[1..], gs[1..]);
      assert fs == [fs[0]] + fs[1..] && gs == [gs[0]] + gs[1..];
    }
  }

  lemma TranscriptHashInjective(t: Transcript, u: Transcript)
    requires t.Fits() && u.Fits() && TranscriptHash(t) == TranscriptHash(u)
    ensures t == u
  {
    SerializedInjective(t.Fields(), u.Fields());
    var a, b := t.Fields(), u.Fields();
    assert a[0] == b[0] && a[1] == b[1] && a[2] == b[2] && a[3] == b[3] && a[4] == b[4] && a[5] == b[5] && a[6] == b[6];
  }

  // ----- session key and confirmation tags -----

  const KDF_INFO := "onesilo-pairing-v1"
  const SAS_INFO := "onesilo-pairing-sas"
  const CONFIRM_LABEL_APP := "onesilo-pairing-confirm-app"
  const CONFIRM_LABEL_NODE := "onesilo-pairing-confirm-node"

  method MixSessionKey(ee: Bytes, ss: Bytes, transcriptHash: Bytes) returns (key: Bytes)
    ensures key == SessionKey(ee, ss, transcriptHash)
  {
    var ikm: Bytes := [];
    ikm := ikm + ee;
    ikm := ikm + ss;
    assert ikm == ee + ss;
    key := [Hkdf(ikm, transcriptHash, Ascii(KDF_INFO))];
  }

  function SessionKey(ee: Bytes, ss: Bytes, transcriptHash: Bytes): Bytes {
    [Hkdf(ee + ss, transcriptHash, Ascii(KDF_INFO))]
  }

  /** A session key fixes the two shared secrets and the transcript it was mixed from. */
  lemma SessionKeyFixesInputs(ee: Bytes, ss: Bytes, h: Bytes, ee': Bytes, ss': Bytes, h': Bytes)
    requires |ee| == |ee'|
    ensures SessionKey(ee, ss, h) == SessionKey(ee', ss', h') <==> ee == ee' && ss == ss' && h == h'
  {
    if SessionKey(ee, ss, h) == SessionKey(ee', ss', h') {
      assert ee + ss == ee' + ss';
      assert ee == (ee + ss)[..|ee|] && ss == (ee + ss)[|ee|..];
      assert ee' == (ee' + ss')[..|ee|] && ss' == (ee' + ss')[|ee|..];
    }
  }

  predicate SamePair(a: nat, b: nat, c: nat, d: nat) {
    (a == c && b == d) || (a == d && b == c)
  }

  /** Two sides hold one key if and only if they agree on both pairs of key-agreement secrets,
      whichever side each secret is on, and on the whole transcript. */
  lemma KeysAgreeIffSecretsAndTranscriptsDo(
    a: nat, b: nat, c: nat, d: nat, t: Transcript, a': nat, b': nat, c': nat, d': nat, t': Transcript)
    requires t.Fits() && t'.Fits()
    ensures SessionKey(Ecdh(a, b), Ecdh(c, d), TranscriptHash(t)) == SessionKey(Ecdh(a', b'), Ecdh(c', d'), TranscriptHash(t')) <==>
      SamePair(a, b, a', b') && SamePair(c, d, c', d') && t == t'
  {
    SessionKeyFixesInputs(Ecdh(a, b), Ecdh(c, d), TranscriptHash(t), Ecdh(a', b'), Ecdh(c', d'), TranscriptHash(t'));
    SharedFixesPair(a, b, a', b');
    SharedFixesPair(c, d, c', d');
    if TranscriptHash(t) == TranscriptHash(t') {
      TranscriptHashInjective(t, t');
    }
  }

  lemma SharedFixesPair(a: nat, b: nat, c: nat, d: nat)
    ensures Ecdh(a, b) == Ecdh(c, d) <==> SamePair(a, b, c, d)
  {
    assert Ecdh(a, b)[0] == Ecdh(c, d)[0] <==> Ecdh(a, b) == Ecdh(c, d);
  }

  function ConfirmTag(key: Bytes, side: string, transcriptHash: Bytes): Bytes {
    [Hmac(key, Ascii(side) + transcriptHash)]
  }

  function AppConfirm(key: Bytes, transcriptHash: Bytes): Bytes {
    ConfirmTag(key, CONFIRM_LABEL_APP, transcriptHash)
  }

  function NodeConfirm(key: Bytes, transcriptHash: Bytes): Bytes {
    ConfirmTag(key, CONFIRM_LABEL_NODE, transcriptHash)
  }

  /** The eight digits a person compares; only the bytes they are read from are kept. */
  function Sas(key: Bytes): Bytes {
    [Hkdf(key, [], Ascii(SAS_INFO))]
  }

  /** Two sides read the same code if and only if they hold the same key. */
  lemma CodesAgreeIffKeysDo(key: Bytes, key': Bytes)
    ensures Sas(key) == Sas(key') <==> key == key'
  {
    assert Sas(key)[0] == Hkdf(key, [], Ascii(SAS_INFO)) && Sas(key')[0] == Hkdf(key', [], Ascii(SAS_INFO));
  }

  /** Neither side's tag can be reflected as the other's, whatever is appended to the labels. */
  lemma LabelsNeverCoincide(key: Bytes, h: Bytes, key': Bytes, h': Bytes)
    ensures AppConfirm(key, h) != NodeConfirm(key', h')
  {
    var a, n := Ascii(CONFIRM_LABEL_APP) + h, Ascii(CONFIRM_LABEL_NODE) + h';
    assert a[24] == Byte('a' as nat) && n[24] == Byte('n' as nat);
  }

  /** A tag fixes the key and the transcript it was made with. */
  lemma AppTagFixesInputs(key: Bytes, t: Transcript, key': Bytes, t': Transcript)
    requires t.Fits() && t'.Fits()
    ensures AppConfirm(key, TranscriptHash(t)) == AppConfirm(key', TranscriptHash(t')) <==> key == key' && t == t'
  {
    if AppConfirm(key, TranscriptHash(t)) == AppConfirm(key', TranscriptHash(t')) {
      var l, h, h' := Ascii(CONFIRM_LABEL_APP), TranscriptHash(t), TranscriptHash(t');
      assert l + h == l + h';
      assert h == (l + h)[|l|..] == (l + h')[|l|..] == h';
      TranscriptHashInjective(t, t');
    }
  }
}
