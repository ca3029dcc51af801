/**
 Composite extraction cursors.

 A cursor is a timestamp followed by the whole primary key of a row.  Postgres orders
 cursors by a row comparison in which text keys are compared byte by byte (collation "C")
 and UUID keys by their sixteen octets.  Python orders the same cursors as nested tuples
 whose text keys are compared by code point and whose UUID keys are canonical text.
 The module defines both orders and proves that they agree.
 */
module Cursors {

  type CodePoint = c: int | 0 <= c < 0xD800 || 0xE000 <= c <= 0x10FFFF
  type Octet = b: int | 0 <= b < 256
  type UuidOctets = s: seq<Octet> | |s| == 16 witness seq(16, _ => 0)

  /** One primary-key column value as the source database holds it. */
  datatype KeyPart = Text(codes: seq<CodePoint>) | Uuid(octets: UuidOctets) | Num(n: int)

  datatype Cursor = Cursor(ts: int, keys: seq<KeyPart>)

  /** A stored watermark position; the initial position carries neither timestamp nor keys. */
  datatype Position = Initial | At(cursor: Cursor)

  // ---------------------------------------------------------------------------------------
  // Lexicographic order of integer sequences
  // ---------------------------------------------------------------------------------------

  predicate LexLess(a: seq<int>, b: seq<int>) {
    b != [] && (a == [] || a[0] < b[0] || (a[0] == b[0] && LexLess(a[1..], b[1..])))
  }

  lemma {:induction false} LexTrichotomy(a: seq<int>, b: seq<int>)
    ensures a == b <==> !LexLess(a, b) && !LexLess(b, a)
    ensures !(LexLess(a, b) && LexLess(b, a))
  {
    if a == [] || b == [] || a[0] != b[0] {
    } else {
      LexTrichotomy(a[1..], b[1..]);
      assert a == [a[0]] + a[1..] && b == [b[0]] + b[1..];
    }
  }

  lemma {:induction false} LexTransitive(a: seq<int>, b: seq<int>, c: seq<int>)
    requires LexLess(a, b) && LexLess(b, c)
    ensures LexLess(a, c)
  {
    if a == [] || a[0] != b[0] || b[0] != c[0] {
    } else {
      LexTransitive(a[1..], b[1..], c[1..]);
    }
  }

  lemma {:induction false} LexCancelPrefix(p: seq<int>, a: seq<int>, b: seq<int>)
    ensures LexLess(p + a, p + b) <==> LexLess(a, b)
  {
    if p == [] {
      assert p + a == a && p + b == b;
    } else {
      assert (p + a)[1..] == p[1..] + a && (p + b)[1..] == p[1..] + b;
      LexCancelPrefix(p[1..], a, b);
    }
  }

  /** For sequences of equal length the last element breaks a tie of the rest. */
  lemma {:induction false} LexSnoc(p: seq<int>, q: seq<int>, x: int, y: int)
    requires |p| == |q|
    ensures LexLess(p + [x], q + [y]) <==> LexLess(p, q) || (p == q && x < y)
  {
    if p == [] {
    } else {
      assert (p + [x])[1..] == p[1..] + [x] && (q + [y])[1..] == q[1..] + [y];
      LexSnoc(p[1..], q[1..], x, y);
      assert p == [p[0]] + p[1..] && q == [q[0]] + q[1..];
    }
  }

  /** `p` is below `q` whatever is appended to either of them. */
  predicate Below(p: seq<int>, q: seq<int>) {
    p != [] && q != [] && (p[0] < q[0] || (|p| == |q| && LexLess(p, q)))
  }

  lemma {:induction false} BelowDecides(p: seq<int>, q: seq<int>, x: seq<int>, y: seq<int>)
    requires Below(p, q)
    ensures LexLess(p + x, q + y)
  {
    if p[0] != q[0] {
    } else {
      assert (p + x)[1..] == p[1..] + x && (q + y)[1..] == q[1..] + y;
      assert LexLess(p[1..], q[1..]);
      BelowDecides(p[1..], q[1..], x, y);
    }
  }

  // ---------------------------------------------------------------------------------------
  // Text: UTF-8 bytes against code points
  // ---------------------------------------------------------------------------------------

  /** A lead octet holding the high bits of `c`, then `n - 1` octets of six bits each. */
  function Sextets(c: nat, lead: nat, n: nat): (r: seq<int>)
    requires n >= 1
    ensures |r| == n
  {
    if n == 1 then [lead + c] else Sextets(c / 64, lead, n - 1) + [0x80 + c % 64]
  }

  /** UTF-8 octets of one code point (section 3 of RFC 3629). */
  function Utf8(c: CodePoint): seq<int> {
    if c < 0x80 then Sextets(c, 0, 1)
    else if c < 0x800 then Sextets(c, 0xC0, 2)
    else if c < 0x10000 then Sextets(c, 0xE0, 3)
    else Sextets(c, 0xF0, 4)
  }

  function TextOctets(codes: seq<CodePoint>): seq<int> {
    if codes == [] then [] else Utf8(codes[0]) + TextOctets(codes[1..])
  }

  lemma {:induction false} SextetsIncreasing(a: nat, b: nat, lead: nat, n: nat)
    requires n >= 1 && a < b
    ensures LexLess(Sextets(a, lead, n), Sextets(b, lead, n))
  {
    if n <= 1 {
    } else {
      if a / 64 < b / 64 {
        SextetsIncreasing(a / 64, b / 64, lead, n - 1);
      }
      LexSnoc(Sextets(a / 64, lead, n - 1), Sextets(b / 64, lead, n - 1), 0x80 + a % 64, 0x80 + b % 64);
    }
  }

  lemma SextetsLead(c: nat, lead: nat)
    ensures Sextets(c, lead, 1)[0] == lead + c
    ensures Sextets(c, lead, 2)[0] == lead + c / 64
    ensures Sextets(c, lead, 3)[0] == lead + c / 64 / 64
    ensures Sextets(c, lead, 4)[0] == lead + c / 64 / 64 / 64
  {
    assert Sextets(c, lead, 3) == Sextets(c / 64, lead, 2) + [0x80 + c % 64];
    assert Sextets(c, lead, 4) == Sextets(c / 64, lead, 3) + [0x80 + c % 64];
    assert Sextets(c / 64, lead, 3) == Sextets(c / 64 / 64, lead, 2) + [0x80 + c / 64 % 64];
  }

  /** A smaller code point has smaller UTF-8 octets, and neither encoding is a prefix of the other. */
  lemma Utf8Increasing(a: CodePoint, b: CodePoint)
    requires a < b
    ensures Below(Utf8(a), Utf8(b))
  {
    if |Utf8(a)| == |Utf8(b)| {
      var lead := if a < 0x80 then 0 else if a < 0x800 then 0xC0 else if a < 0x10000 then 0xE0 else 0xF0;
      SextetsIncreasing(a, b, lead, |Utf8(a)|);
    } else {
      SextetsLead(a, 0);
      SextetsLead(a, 0xC0);
      SextetsLead(a, 0xE0);
      SextetsLead(b, 0xC0);
      SextetsLead(b, 0xE0);
      SextetsLead(b, 0xF0);
    }
  }

  /** Byte order of encoded text is code-point order of the text. */
  lemma {:induction false} TextOrderAgrees(a: seq<CodePoint>, b: seq<CodePoint>)
    ensures LexLess(TextOctets(a), TextOctets(b)) <==> LexLess(a, b)
  {
    if a == [] || b == [] {
    } else {
      var restA, restB := TextOctets(a[1..]), TextOctets(b[1..]);
      if a[0] == b[0] {
        LexCancelPrefix(Utf8(a[0]), restA, restB);
        TextOrderAgrees(a[1..], b[1..]);
      } else if a[0] < b[0] {
        Utf8Increasing(a[0], b[0]);
        BelowDecides(Utf8(a[0]), Utf8(b[0]), restA, restB);
      } else {
        Utf8Increasing(b[0], a[0]);
        BelowDecides(Utf8(b[0]), Utf8(a[0]), restB, restA);
        LexTrichotomy(TextOctets(a), TextOctets(b));
      }
    }
  }

  // ---------------------------------------------------------------------------------------
  // UUIDs: sixteen octets against canonical text
  // ---------------------------------------------------------------------------------------

  function HexDigit(n: int): (c: CodePoint)
    requires 0 <= n < 16
  {
    if n < 10 then '0' as int + n else 'a' as int + (n - 10)
  }

  /** The hyphen, if any, written before octet `i`. */
  function Hyphen(i: nat): seq<CodePoint> {
    if i == 4 || i == 6 || i == 8 || i == 10 then ['-' as int] else []
  }

  function HexPair(b: Octet): seq<CodePoint> {
    [HexDigit(b / 16), HexDigit(b % 16)]
  }

  /** Canonical 8-4-4-4-12 text of the octets from index `i` on (section 4 of RFC 9562). */
  function UuidTextFrom(octets: UuidOctets, i: nat): (r: seq<CodePoint>)
    requires i <= 16
    decreases 16 - i
  {
    if i == 16 then [] else Hyphen(i) + (HexPair(octets[i]) + UuidTextFrom(octets, i + 1))
  }

  function UuidText(octets: UuidOctets): seq<CodePoint> {
    UuidTextFrom(octets, 0)
  }

  lemma HexPairOrder(x: Octet, y: Octet)
    ensures LexLess(HexPair(x), HexPair(y)) <==> x < y
    ensures HexPair(x) == HexPair(y) <==> x == y
  {
    var p, q := HexPair(x), HexPair(y);
    assert p == [p[0]] + [p[1]] && q == [q[0]] + [q[1]];
    LexSnoc([p[0]], [q[0]], p[1], q[1]);
    assert LexLess([p[0]], [q[0]]) <==> p[0] < q[0];
  }

  lemma HexPairStep(dash: seq<int>, x: Octet, y: Octet, restX: seq<int>, restY: seq<int>)
    ensures LexLess(dash + (HexPair(x) + restX), dash + (HexPair(y) + restY))
      <==> x < y || (x == y && LexLess(restX, restY))
  {
    LexCancelPrefix(dash, HexPair(x) + restX, HexPair(y) + restY);
    HexPairOrder(x, y);
    HexPairOrder(y, x);
    if x < y {
      BelowDecides(HexPair(x), HexPair(y), restX, restY);
    } else if x == y {
      LexCancelPrefix(HexPair(x), restX, restY);
    } else {
      BelowDecides(HexPair(y), HexPair(x), restY, restX);
      LexTrichotomy(HexPair(x) + restX, HexPair(y) + restY);
    }
  }

  lemma LexHead(a: seq<int>, b: seq<int>)
    requires a != [] && b != []
    ensures LexLess(a, b) <==> a[0] < b[0] || (a[0] == b[0] && LexLess(a[1..], b[1..]))
  {
  }

  lemma {:induction false} UuidOrderAgreesFrom(a: UuidOctets, b: UuidOctets, i: nat)
    requires i <= 16
    ensures LexLess(UuidTextFrom(a, i), UuidTextFrom(b, i)) <==> LexLess(a[i..], b[i..])
    decreases 16 - i
  {
    if i == 16 {
    } else {
      var restA, restB := UuidTextFrom(a, i + 1), UuidTextFrom(b, i + 1);
      HexPairStep(Hyphen(i), a[i], b[i], restA, restB);
      assert a[i..][1..] == a[i + 1..] && b[i..][1..] == b[i + 1..];
      LexHead(a[i..], b[i..]);
      UuidOrderAgreesFrom(a, b, i + 1);
    }
  }

  lemma UuidOrderAgrees(a: UuidOctets, b: UuidOctets)
    ensures LexLess(UuidText(a), UuidText(b)) <==> LexLess(a, b)
  {
    UuidOrderAgreesFrom(a, b, 0);
    assert a[0..] == a && b[0..] == b;
  }

  // ---------------------------------------------------------------------------------------
  // The SQL order of cursors
  // ---------------------------------------------------------------------------------------

  /**
   Column order in Postgres.  One column never holds two kinds of value, so the order
   between kinds is arbitrary; it only makes the relation total.
   */
  predicate PartLess(a: KeyPart, b: KeyPart) {
    match (a, b)
    case (Text(x), Text(y)) => LexLess(TextOctets(x), TextOctets(y))
    case (Uuid(x), Uuid(y)) => LexLess(x, y)
    case (Num(x), Num(y)) => x < y
    case _ => (a.Text? && !b.Text?) || (a.Uuid? && b.Num?)
  }

  predicate KeysLess(a: seq<KeyPart>, b: seq<KeyPart>) {
    b != [] && (a == [] || PartLess(a[0], b[0]) || (a[0] == b[0] && KeysLess(a[1..], b[1..])))
  }

  predicate Less(a: Cursor, b: Cursor) {
    a.ts < b.ts || (a.ts == b.ts && KeysLess(a.keys, b.keys))
  }

  lemma PartTrichotomy(a: KeyPart, b: KeyPart)
    ensures a == b <==> !PartLess(a, b) && !PartLess(b, a)
    ensures !(PartLess(a, b) && PartLess(b, a))
  {
    match (a, b)
    case (Text(x), Text(y)) =>
      TextOrderAgrees(x, y);
      TextOrderAgrees(y, x);
      LexTrichotomy(x, y);
    case (Uuid(x), Uuid(y)) => LexTrichotomy(x, y);
    case _ =>
  }

  lemma PartTransitive(a: KeyPart, b: KeyPart, c: KeyPart)
    requires PartLess(a, b) && PartLess(b, c)
    ensures PartLess(a, c)
  {
    match (a, b, c)
    case (Text(x), Text(y), Text(z)) => LexTransitive(TextOctets(x), TextOctets(y), TextOctets(z));
    case (Uuid(x), Uuid(y), Uuid(z)) => LexTransitive(x, y, z);
    case _ =>
  }

  lemma {:induction false} KeysTrichotomy(a: seq<KeyPart>, b: seq<KeyPart>)
    ensures a == b <==> !KeysLess(a, b) && !KeysLess(b, a)
    ensures !(KeysLess(a, b) && KeysLess(b, a))
  {
    if a == [] || b == [] {
    } else {
      PartTrichotomy(a[0], b[0]);
      if a[0] == b[0] {
        KeysTrichotomy(a[1..], b[1..]);
        assert a == [a[0]] + a[1..] && b == [b[0]] + b[1..];
      }
    }
  }

  lemma {:induction false} KeysTransitive(a: seq<KeyPart>, b: seq<KeyPart>, c: seq<KeyPart>)
    requires KeysLess(a, b) && KeysLess(b, c)
    ensures KeysLess(a, c)
  {
    if a == [] {
    } else {
      if PartLess(a[0], b[0]) && PartLess(b[0], c[0]) {
        PartTransitive(a[0], b[0], c[0]);
      } else if a[0] == b[0] == c[0] {
        KeysTransitive(a[1..], b[1..], c[1..]);
      }
    }
  }

  /** The cursor order is a strict total order. */
  lemma LessTrichotomy(a: Cursor, b: Cursor)
    ensures a == b <==> !Less(a, b) && !Less(b, a)
    ensures !(Less(a, b) && Less(b, a))
  {
    KeysTrichotomy(a.keys, b.keys);
  }

  lemma LessTransitive(a: Cursor, b: Cursor, c: Cursor)
    requires Less(a, b) && Less(b, c)
    ensures Less(a, c)
  {
    if a.ts == b.ts == c.ts {
      KeysTransitive(a.keys, b.keys, c.keys);
    }
  }

  // ---------------------------------------------------------------------------------------
  // The Python order of cursors
  // ---------------------------------------------------------------------------------------

  /** A key as `CursorPosition.keys` holds it: text (UUIDs included) or an integer. */
  datatype PyKey = PyStr(codes: seq<CodePoint>) | PyInt(n: int)

  datatype PyCursor = PyCursor(ts: int, keys: seq<PyKey>)

  function NormalizePart(k: KeyPart): PyKey {
    match k
    case Text(codes) => PyStr(codes)
    case Uuid(octets) => PyStr(UuidText(octets))
    case Num(n) => PyInt(n)
  }

  function Normalize(keys: seq<KeyPart>): (r: seq<PyKey>)
    ensures |r| == |keys|
  {
    if keys == [] then [] else [NormalizePart(keys[0])] + Normalize(keys[1..])
  }

  function NormalizeCursor(c: Cursor): PyCursor {
    PyCursor(c.ts, Normalize(c.keys))
  }

  predicate PyKeyLess(a: PyKey, b: PyKey) {
    match (a, b)
    case (PyStr(x), PyStr(y)) => LexLess(x, y)
    case (PyInt(x), PyInt(y)) => x < y
    case _ => false
  }

  predicate PyKeysLess(a: seq<PyKey>, b: seq<PyKey>) {
    b != [] && (a == [] || PyKeyLess(a[0], b[0]) || (a[0] == b[0] && PyKeysLess(a[1..], b[1..])))
  }

  predicate PyLess(a: PyCursor, b: PyCursor) {
    a.ts < b.ts || (a.ts == b.ts && PyKeysLess(a.keys, b.keys))
  }

  /** Both keys come from the same table contract: same column count and column kinds. */
  predicate SameShape(a: seq<KeyPart>, b: seq<KeyPart>) {
    && |a| == |b|
    && forall i :: 0 <= i < |a| ==>
         (a[i].Text? == b[i].Text?) && (a[i].Uuid? == b[i].Uuid?) && (a[i].Num? == b[i].Num?)
  }

  lemma PartOrderAgrees(a: KeyPart, b: KeyPart)
    requires SameShape([a], [b])
    ensures PyKeyLess(NormalizePart(a), NormalizePart(b)) <==> PartLess(a, b)
    ensures NormalizePart(a) == NormalizePart(b) <==> a == b
  {
    assert [a][0] == a && [b][0] == b;
    match a
    case Text(x) => TextOrderAgrees(x, b.codes);
    case Num(_) =>
    case Uuid(x) =>
      var y := b.octets;
      UuidOrderAgrees(x, y);
      UuidOrderAgrees(y, x);
      LexTrichotomy(x, y);
      LexTrichotomy(UuidText(x), UuidText(y));
  }

  lemma {:induction false} KeysOrderAgrees(a: seq<KeyPart>, b: seq<KeyPart>)
    requires SameShape(a, b)
    ensures PyKeysLess(Normalize(a), Normalize(b)) <==> KeysLess(a, b)
    ensures Normalize(a) == Normalize(b) <==> a == b
  {
    if a == [] {
    } else {
      PartOrderAgrees(a[0], b[0]);
      KeysOrderAgrees(a[1..], b[1..]);
      assert Normalize(a)[1..] == Normalize(a[1..]) && Normalize(b)[1..] == Normalize(b[1..]);
      assert a == [a[0]] + a[1..] && b == [b[0]] + b[1..];
    }
  }

  /**
   Python compares normalized cursors exactly as Postgres compares the rows' cursor
   expressions, and normalization loses nothing.
   */
  lemma OrdersAgree(a: Cursor, b: Cursor)
    requires SameShape(a.keys, b.keys)
    ensures PyLess(NormalizeCursor(a), NormalizeCursor(b)) <==> Less(a, b)
    ensures NormalizeCursor(a) == NormalizeCursor(b) <==> a == b
  {
    KeysOrderAgrees(a.keys, b.keys);
  }

  // ---------------------------------------------------------------------------------------
  // Positions
  // ---------------------------------------------------------------------------------------

  /** The cursor lies strictly after a lower bound. */
  predicate After(c: Cursor, p: Position) {
    p.Initial? || Less(p.cursor, c)
  }

  /** The cursor lies at or below a fixed upper bound or watermark. */
  predicate UpTo(c: Cursor, p: Position) {
    p.At? && !Less(p.cursor, c)
  }

  /** Whether a rewind target is earlier than the current watermark. */
  predicate Earlier(candidate: Position, current: Position) {
    current.At? && (candidate.Initial? || Less(candidate.cursor, current.cursor))
  }

  lemma UpToIsNotAfter(c: Cursor, p: Position)
    ensures UpTo(c, p) <==> !After(c, p)
  {
  }

  lemma UpToMonotone(c: Cursor, p: Position, q: Position)
    requires UpTo(c, p) && Earlier(p, q)
    ensures UpTo(c, q)
  {
    if Less(q.cursor, c) {
      LessTransitive(p.cursor, q.cursor, c);
    }
  }

  // ---------------------------------------------------------------------------------------
  // What the orders mean, element by element
  // ---------------------------------------------------------------------------------------

  /** At the first place where the sequences differ, `x` has ended or holds the smaller number. */
  ghost predicate DiffersBelow(x: seq<int>, y: seq<int>, k: int) {
    0 <= k < |y| && k <= |x| && x[..k] == y[..k] && (k == |x| || x[k] < y[k])
  }

  lemma DiffersShifted(x: seq<int>, y: seq<int>, k: int)
    requires x != [] && y != [] && x[0] == y[0]
    ensures DiffersBelow(x[1..], y[1..], k) <==> k >= 0 && DiffersBelow(x, y, k + 1)
  {
    if 0 <= k < |y| - 1 && k <= |x| - 1 {
      assert x[..k + 1] == [x[0]] + x[1..][..k] && y[..k + 1] == [y[0]] + y[1..][..k];
    }
  }

  lemma {:induction false} LexMeans(x: seq<int>, y: seq<int>)
    ensures LexLess(x, y) <==> exists k :: DiffersBelow(x, y, k)
  {
    if x == [] || y == [] {
      assert y != [] ==> DiffersBelow(x, y, 0);
    } else if x[0] != y[0] {
      assert x[0] < y[0] ==> DiffersBelow(x, y, 0);
      forall k | DiffersBelow(x, y, k) ensures k == 0 {
      }
    } else {
      LexMeans(x[1..], y[1..]);
      forall k ensures DiffersBelow(x[1..], y[1..], k) <==> k >= 0 && DiffersBelow(x, y, k + 1) {
        DiffersShifted(x, y, k);
      }
      forall k | DiffersBelow(x, y, k) ensures DiffersBelow(x[1..], y[1..], k - 1) {
        assert k > 0;
        DiffersShifted(x, y, k - 1);
      }
    }
  }

  /** Numbers by value, text by its first different code point, UUIDs by their first different octet. */
  ghost predicate PartBefore(a: KeyPart, b: KeyPart) {
    || (a.Num? && b.Num? && a.n < b.n)
    || (a.Text? && b.Text? && exists k :: DiffersBelow(a.codes, b.codes, k))
    || (a.Uuid? && b.Uuid? && exists k :: DiffersBelow(a.octets, b.octets, k))
  }

  /** The keys agree before column `k` and `a` comes first in it. */
  ghost predicate KeysBefore(a: seq<KeyPart>, b: seq<KeyPart>, k: int) {
    0 <= k < |a| && k < |b| && a[..k] == b[..k] && PartBefore(a[k], b[k])
  }

  /** By time, and at the same time by the first key column in which the cursors differ. */
  ghost predicate IsBefore(a: Cursor, b: Cursor) {
    a.ts < b.ts || (a.ts == b.ts && exists k :: KeysBefore(a.keys, b.keys, k))
  }

  lemma PartMeans(a: KeyPart, b: KeyPart)
    requires SameShape([a], [b])
    ensures PartLess(a, b) <==> PartBefore(a, b)
  {
    assert [a][0] == a && [b][0] == b;
    match a
    case Text(x) =>
      TextOrderAgrees(x, b.codes);
      LexMeans(x, b.codes);
    case Uuid(x) => LexMeans(x, b.octets);
    case Num(_) =>
  }

  lemma KeysShifted(a: seq<KeyPart>, b: seq<KeyPart>, k: int)
    requires a != [] && b != [] && a[0] == b[0]
    ensures KeysBefore(a[1..], b[1..], k) <==> k >= 0 && KeysBefore(a, b, k + 1)
  {
    hide PartBefore;
    if 0 <= k < |a| - 1 && k < |b| - 1 {
      assert a[..k + 1] == [a[0]] + a[1..][..k] && b[..k + 1] == [b[0]] + b[1..][..k];
    }
  }

  lemma {:induction false} KeysMean(a: seq<KeyPart>, b: seq<KeyPart>)
    requires SameShape(a, b)
    ensures KeysLess(a, b) <==> exists k :: KeysBefore(a, b, k)
  {
    hide PartBefore, PartLess;
    if a == [] {
    } else if a[0] != b[0] {
      PartMeans(a[0], b[0]);
      assert PartBefore(a[0], b[0]) ==> KeysBefore(a, b, 0);
      forall k | KeysBefore(a, b, k) ensures k == 0 {
      }
    } else {
      PartMeans(a[0], b[0]);
      PartTrichotomy(a[0], b[0]);
      KeysMean(a[1..], b[1..]);
      forall k ensures KeysBefore(a[1..], b[1..], k) <==> k >= 0 && KeysBefore(a, b, k + 1) {
        KeysShifted(a, b, k);
      }
      forall k | KeysBefore(a, b, k) ensures KeysBefore(a[1..], b[1..], k - 1) {
        assert k > 0;
        KeysShifted(a, b, k - 1);
      }
    }
  }

  /** The cursor order is the one an index on time and key columns gives. */
  lemma LessMeans(a: Cursor, b: Cursor)
    requires SameShape(a.keys, b.keys)
    ensures Less(a, b) <==> IsBefore(a, b)
  {
    hide KeysBefore;
    KeysMean(a.keys, b.keys);
  }

  lemma ShapeIsSymmetric(a: seq<KeyPart>, b: seq<KeyPart>)
    requires SameShape(a, b)
    ensures SameShape(b, a)
  {
  }

  /** Bounds: the lower one is exclusive, the upper one inclusive, and nothing precedes the initial position. */
  lemma BoundsMean(c: Cursor, p: Position)
    requires p.At? ==> SameShape(c.keys, p.cursor.keys)
    ensures After(c, p) <==> p.Initial? || IsBefore(p.cursor, c)
    ensures UpTo(c, p) <==> p.At? && (IsBefore(c, p.cursor) || c == p.cursor)
    ensures Earlier(p, At(c)) <==> p.Initial? || IsBefore(p.cursor, c)
    ensures !Earlier(p, Initial)
  {
    hide Less, IsBefore, SameShape;
    if p.At? {
      assert SameShape(p.cursor.keys, c.keys) by { ShapeIsSymmetric(c.keys, p.cursor.keys); }
      LessMeans(p.cursor, c);
      LessMeans(c, p.cursor);
      LessTrichotomy(c, p.cursor);
    }
  }
}
