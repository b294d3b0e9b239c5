/** Bytes, identifiers and the signed form of the messages the control plane
    sends to a daemon (internal/protocol/protocol.go). */
module Wire {
  newtype byte = x: int | 0 <= x < 256

  type Bytes = seq<byte>

  /** The text form of a database uuid: 36 characters. */
  type Uuid = id: Bytes | |id| == 36 witness seq(36, _ => 0)

  datatype Option<+T> = None | Some(value: T)

  function Elements<T>(s: seq<T>): set<T> {
    set x | x in s
  }

  /** The text before and after the first separator. */
  function Cut(s: string, sep: char): (cut: Option<(string, string)>)
    ensures cut.None? <==> sep !in s
    ensures cut.Some? ==> s == cut.value.0 + [sep] + cut.value.1 && sep !in cut.value.0
  {
    if s == "" then None
    else if s[0] == sep then Some(("", s[1..]))
    else
      var rest := Cut(s[1..], sep);
      if rest.None? then None else Some(([s[0]] + rest.value.0, rest.value.1))
  }

  lemma CutJoined(a: string, sep: char, b: string)
    ensures Cut(a + [sep] + b, sep) == Some((a, b)) <==> sep !in a
  {
    if sep !in a {
      var s := a + [sep] + b;
      assert s[|a|] == sep;
      var (x, y) := Cut(s, sep).value;
      assert s[|x|] == sep;
      assert forall i | 0 <= i < |a| :: s[i] == a[i];
      assert forall i | 0 <= i < |x| :: s[i] == x[i];
      assert |x| == |a|;
      assert x == s[..|x|] && y == s[|x| + 1..];
      assert a == s[..|a|] && b == s[|a| + 1..];
    }
  }

  datatype Kind = SnapshotKind | SecretSetsKind

  function Ascii(s: string): (b: Bytes)
    ensures |b| == |s|
  {
    seq(|s|, i requires 0 <= i < |s| => (s[i] as int % 256) as byte)
  }

  /** Domain-separation tag of each signed message kind. */
  function Tag(kind: Kind): Bytes {
    match kind
    case SnapshotKind => Ascii("custos-snapshot:v1")
    case SecretSetsKind => Ascii("custos-sets:v1")
  }

  /** The low `width` bytes of `n`, most significant first. */
  function BigEndian(width: nat, n: nat): (b: Bytes)
    ensures |b| == width
  {
    if width == 0 then [] else BigEndian(width - 1, n / 256) + [(n % 256) as byte]
  }

  function FromBigEndian(b: Bytes): (n: nat)
    ensures n < Power256(|b|)
  {
    if |b| == 0 then 0 else FromBigEndian(b[..|b| - 1]) * 256 + b[|b| - 1] as nat
  }

  function Power256(width: nat): (p: nat)
    ensures p >= 1
  {
    if width == 0 then 1 else 256 * Power256(width - 1)
  }

  const HOST_ID_LIMIT: nat := 65536
  const NUMBER_LIMIT: nat := 0x1_0000_0000_0000_0000

  type Uint64 = n: nat | n < NUMBER_LIMIT witness 0

  /** tag, 16-bit host id length, host id, 64-bit sequence number, data. */
  function SigningInput(kind: Kind, hostId: Bytes, number: nat, data: Bytes): Bytes {
    Tag(kind) + Framed(hostId, number, data)
  }

  function Framed(hostId: Bytes, number: nat, data: Bytes): Bytes {
    BigEndian(2, |hostId|) + (hostId + (BigEndian(8, number) + data))
  }

  lemma {:induction false} BigEndianRoundTrip(width: nat, n: nat)
    requires n < Power256(width)
    ensures FromBigEndian(BigEndian(width, n)) == n
  {
    if width > 0 {
      BigEndianRoundTrip(width - 1, n / 256);
    }
  }

  lemma {:induction false} FromBigEndianRoundTrip(b: Bytes)
    ensures BigEndian(|b|, FromBigEndian(b)) == b
  {
    if |b| > 0 {
      var init, last := b[..|b| - 1], b[|b| - 1];
      FromBigEndianRoundTrip(init);
      Shifted(FromBigEndian(init), last as nat);
      assert b == init + [last];
      hide Power256;
    }
  }

  lemma Shifted(n: nat, low: nat)
    requires low < 256
    ensures (n * 256 + low) / 256 == n && (n * 256 + low) % 256 == low
  {}

  lemma Powers()
    ensures Power256(2) == HOST_ID_LIMIT && Power256(8) == NUMBER_LIMIT
  {
    assert Power256(4) == 0x1_0000_0000;
  }

  lemma TagsDiffer()
    ensures Tag(SnapshotKind)[8] != Tag(SecretSetsKind)[8]
  {
    assert "custos-snapshot:v1"[8] == 'n' && "custos-sets:v1"[8] == 'e';
  }

  lemma {:induction false} BigEndianAt(width: nat, n: nat, i: nat)
    requires i < width
    ensures BigEndian(width, n)[i] as nat == n / Power256(width - 1 - i) % 256
  {
    if i < width - 1 {
      BigEndianAt(width - 1, n / 256, i);
      DivDiv(n, Power256(width - 2 - i));
    }
  }

  lemma DivDiv(n: nat, p: nat)
    requires p > 0
    ensures n / 256 / p == n / (256 * p)
  {
    var q, r := n / 256 / p, n / 256 % p;
    assert n / 256 == q * p + r;
    assert 256 * (q * p) == q * (256 * p);
    DivUnique(n, 256 * p, q, 256 * r + n % 256);
  }

  /** The text of the tag. */
  function TagText(kind: Kind): string {
    if kind == SnapshotKind then "custos-snapshot:v1" else "custos-sets:v1"
  }

  /** The low bytes of the number, most significant first. */
  ghost predicate IsBigEndian(b: Bytes, n: nat) {
    forall i | 0 <= i < |b| :: b[i] as nat == n / Power256(|b| - 1 - i) % 256
  }

  /** The layout of the signed bytes: the tag's text, two bytes of the host id's length, the host
      id, eight bytes of the number, both most significant first, and the data. */
  lemma SigningLayout(kind: Kind, hostId: Bytes, number: nat, data: Bytes)
    ensures var b, o := SigningInput(kind, hostId, number, data), |TagText(kind)|;
            var h := o + 2 + |hostId|;
            && |b| == h + 8 + |data|
            && (forall i | 0 <= i < o :: b[i] as int == TagText(kind)[i] as int)
            && IsBigEndian(b[o..o + 2], |hostId|)
            && b[o + 2..h] == hostId
            && IsBigEndian(b[h..h + 8], number)
            && b[h + 8..] == data
  {
    hide BigEndian, IsBigEndian, Tag, TagText;
    TagIsText(kind);
    var l, m := BigEndian(2, |hostId|), BigEndian(8, number);
    var b, o := Tag(kind) + (l + (hostId + (m + data))), |TagText(kind)|;
    var h := o + 2 + |hostId|;
    assert b[o..o + 2] == l && b[o + 2..h] == hostId && b[h..h + 8] == m && b[h + 8..] == data;
    BigEndianBytes(2, |hostId|);
    BigEndianBytes(8, number);
  }

  lemma BigEndianBytes(width: nat, n: nat)
    ensures IsBigEndian(BigEndian(width, n), n)
  {
    forall i | 0 <= i < width
      ensures BigEndian(width, n)[i] as nat == n / Power256(width - 1 - i) % 256
    {
      BigEndianAt(width, n, i);
    }
  }

  lemma TagIsText(kind: Kind)
    ensures |Tag(kind)| == |TagText(kind)|
    ensures forall i | 0 <= i < |Tag(kind)| :: Tag(kind)[i] as int == TagText(kind)[i] as int
  {
    assert forall i | 0 <= i < 18 :: "custos-snapshot:v1"[i] < 128 as char;
    assert forall i | 0 <= i < 14 :: "custos-sets:v1"[i] < 128 as char;
  }

  /** The signed bytes name one kind, one host, one number and one payload. */
  lemma SigningInputInjective(k1: Kind, h1: Bytes, n1: nat, d1: Bytes, k2: Kind, h2: Bytes, n2: nat, d2: Bytes)
    requires |h1| < HOST_ID_LIMIT && |h2| < HOST_ID_LIMIT
    requires n1 < NUMBER_LIMIT && n2 < NUMBER_LIMIT
    requires SigningInput(k1, h1, n1, d1) == SigningInput(k2, h2, n2, d2)
    ensures k1 == k2 && h1 == h2 && n1 == n2 && d1 == d2
  {
    var f1, f2 := Framed(h1, n1, d1), Framed(h2, n2, d2);
    TagsDiffer();
    assert (Tag(k1) + f1)[8] == Tag(k1)[8] && (Tag(k2) + f2)[8] == Tag(k2)[8];
    SplitEqual(Tag(k1), f1, Tag(k2), f2);
    FramedInjective(h1, n1, d1, h2, n2, d2);
  }

  lemma FramedInjective(h1: Bytes, n1: nat, d1: Bytes, h2: Bytes, n2: nat, d2: Bytes)
    requires |h1| < HOST_ID_LIMIT && |h2| < HOST_ID_LIMIT
    requires n1 < NUMBER_LIMIT && n2 < NUMBER_LIMIT
    requires Framed(h1, n1, d1) == Framed(h2, n2, d2)
    ensures h1 == h2 && n1 == n2 && d1 == d2
  {
    var l1, l2 := BigEndian(2, |h1|), BigEndian(2, |h2|);
    var b1, b2 := BigEndian(8, n1), BigEndian(8, n2);
    SplitEqual(l1, h1 + (b1 + d1), l2, h2 + (b2 + d2));
    Powers();
    BigEndianRoundTrip(2, |h1|);
    BigEndianRoundTrip(2, |h2|);
    SplitEqual(h1, b1 + d1, h2, b2 + d2);
    SplitEqual(b1, d1, b2, d2);
    BigEndianRoundTrip(8, n1);
    BigEndianRoundTrip(8, n2);
  }

  lemma SplitEqual(a: Bytes, b: Bytes, c: Bytes, d: Bytes)
    requires a + b == c + d && |a| == |c|
    ensures a == c && b == d
  {
    assert a == (a + b)[..|a|] && c == (c + d)[..|c|];
    assert b == (a + b)[|a|..] && d == (c + d)[|c|..];
  }

  /** The length bound is needed: the 16-bit length wraps, so every longer host
      id shares its signed bytes with a shorter one. */
  lemma LongHostIdCollides(k: Kind, h: Bytes, n: nat, d: Bytes) returns (h': Bytes, n': nat, d': Bytes)
    requires |h| >= HOST_ID_LIMIT
    ensures |h'| < HOST_ID_LIMIT && n' < NUMBER_LIMIT
    ensures SigningInput(k, h', n', d') == SigningInput(k, h, n, d)
  {
    var cut := |h| % HOST_ID_LIMIT;
    var rest := h[cut..] + BigEndian(8, n) + d;
    h', n', d' := h[..cut], FromBigEndian(rest[..8]), rest[8..];
    FromBigEndianRoundTrip(rest[..8]);
    Powers();
    assert BigEndian(2, |h|) == BigEndian(2, cut) by {
      LowBytes(2, |h|);
    }
    assert h == h' + h[cut..];
    assert h' + (rest[..8] + rest[8..]) == h + (BigEndian(8, n) + d);
  }

  lemma {:induction false} LowBytes(width: nat, n: nat)
    ensures BigEndian(width, n) == BigEndian(width, n % Power256(width))
  {
    if width > 0 {
      var p := Power256(width - 1);
      LowBytes(width - 1, n / 256);
      LowBytes(width - 1, (n % (256 * p)) / 256);
      ModSplit(n, p);
    }
  }

  lemma ModSplit(n: nat, p: nat)
    requires p > 0
    ensures (n % (256 * p)) / 256 == (n / 256) % p
    ensures (n % (256 * p)) % 256 == n % 256
  {
    var q, r := (n / 256) / p, (n / 256) % p;
    var low := 256 * r + n % 256;
    assert n / 256 == q * p + r;
    assert 256 * (q * p) == q * (256 * p);
    assert n == q * (256 * p) + low;
    assert 0 <= low < 256 * p;
    DivUnique(n, 256 * p, q, low);
  }

  lemma DivUnique(n: nat, m: nat, q: nat, r: nat)
    requires m > 0 && n == q * m + r && r < m
    ensures n / m == q && n % m == r
  {
    var k := n / m - q;
    assert k * m == r - n % m;
    assert k == 0 by {
      assert (k - 1) * m < 0 && (k + 1) * m > 0;
    }
  }
}
