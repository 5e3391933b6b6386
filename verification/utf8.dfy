/** UTF-8 (section 3 of RFC 3629) over code points, and decoding that ignores what is invalid. */
module Utf8 {
  predicate IsScalar(c: int) {
    0 <= c < 0xD800 || 0xE000 <= c < 0x11_0000
  }

  type CodePoint = c: int | 0 <= c < 0xD800 || 0xE000 <= c < 0x11_0000

  type Byte = b: int | 0 <= b < 256

  type Text = seq<CodePoint>

  type Bytes = seq<Byte>

  predicate IsContinuation(b: Byte) {
    0x80 <= b < 0xC0
  }

  function Width(c: CodePoint): nat {
    if c < 0x80 then 1 else if c < 0x800 then 2 else if c < 0x1_0000 then 3 else 4
  }

  /** A continuation byte carrying the low six bits of `n`. */
  function Tail(n: nat): (b: Byte)
    ensures IsContinuation(b)
  {
    0x80 + n % 0x40
  }

  function EncodePoint(c: CodePoint): (bs: Bytes)
    ensures |bs| == Width(c)
  {
    var n: int := c;
    if n < 0x80 then
      var b: Byte := n;
      [b]
    else if n < 0x800 then
      var b: Byte := 0xC0 + n / 0x40;
      [b, Tail(n)]
    else if n < 0x1_0000 then
      var b: Byte := 0xE0 + n / 0x1000;
      [b, Tail(n / 0x40), Tail(n)]
    else
      var b: Byte := 0xF0 + n / 0x4_0000;
      [b, Tail(n / 0x1000), Tail(n / 0x40), Tail(n)]
  }

  function Encode(t: Text): Bytes {
    if t == [] then [] else EncodePoint(t[0]) + Encode(t[1..])
  }

  /** How many bytes a first byte announces; 0 for a byte that starts nothing. */
  function Announced(b: Byte): nat {
    if b < 0x80 then 1
    else if 0xC2 <= b < 0xE0 then 2
    else if 0xE0 <= b < 0xF0 then 3
    else if 0xF0 <= b < 0xF5 then 4
    else 0
  }

  /** Every byte is one of three: a continuation, which has the two high bits 10, a first byte, or one that
      occurs in no encoding. */
  lemma ByteClasses(b: Byte)
    ensures IsContinuation(b) <==> b / 0x40 == 2
    ensures Announced(b) > 0 <==> !IsContinuation(b) && b != 0xC0 && b != 0xC1 && b < 0xF5
    ensures Announced(b) == 1 <==> b < 0x80
    ensures Announced(b) == 2 <==> 0xC2 <= b <= 0xDF
    ensures Announced(b) == 3 <==> b / 0x10 == 0xE
  {
  }

  /** The code point that a sequence of the announced length spells. */
  function Spelled(bs: Bytes): int
    requires |bs| > 0 && 1 <= Announced(bs[0]) <= |bs|
  {
    var lead: int := bs[0];
    var low := (i: int) requires 0 <= i < |bs| => bs[i] as int - 0x80;
    match Announced(bs[0])
    case 1 => lead
    case 2 => (lead - 0xC0) * 0x40 + low(1)
    case 3 => (lead - 0xE0) * 0x1000 + low(1) * 0x40 + low(2)
    case _ => (lead - 0xF0) * 0x4_0000 + low(1) * 0x1000 + low(2) * 0x40 + low(3)
  }

  /** A valid sequence stands at the front: it spells a scalar value in its only valid form. */
  predicate Starts(bs: Bytes) {
    && |bs| > 0 && 1 <= Announced(bs[0]) <= |bs|
    && IsScalar(Spelled(bs))
    && EncodePoint(Spelled(bs)) == bs[..Announced(bs[0])]
  }

  /** bytes.decode("utf-8", errors="ignore"); skipping an invalid part byte by byte drops the same
      bytes as skipping it at once. */
  function DecodeIgnore(bs: Bytes): Text {
    if bs == [] then []
    else if Starts(bs) then [Spelled(bs)] + DecodeIgnore(bs[Announced(bs[0])..])
    else DecodeIgnore(bs[1..])
  }

  // ---- One code point -------------------------------------------------------------------------

  lemma PointBytes(c: CodePoint)
    ensures var bs := EncodePoint(c);
            && !IsContinuation(bs[0]) && Announced(bs[0]) == |bs|
            && forall i :: 1 <= i < |bs| ==> IsContinuation(bs[i])
  {
  }

  /** Splitting off groups of six bits loses nothing. */
  lemma SixBitGroups(n: nat)
    ensures n == n / 0x40 * 0x40 + n % 0x40
    ensures n == n / 0x1000 * 0x1000 + n / 0x40 % 0x40 * 0x40 + n % 0x40
  {
    var q := n / 0x40;
    assert q / 0x40 == n / 0x1000;
  }

  lemma SpelledBack(c: CodePoint)
    ensures Announced(EncodePoint(c)[0]) == Width(c) && Spelled(EncodePoint(c)) == c
  {
    PointBytes(c);
    var n: int := c;
    SixBitGroups(n);
    if n >= 0x1_0000 {
      SixBitGroups(n / 0x40);
      assert n / 0x40 / 0x1000 == n / 0x4_0000 && n / 0x40 / 0x40 == n / 0x1000;
    }
  }

  /** Reading stops exactly behind the code point. */
  lemma StartsWithPoint(c: CodePoint, rest: Bytes)
    ensures Starts(EncodePoint(c) + rest)
    ensures DecodeIgnore(EncodePoint(c) + rest) == [c] + DecodeIgnore(rest)
  {
    var one := EncodePoint(c);
    var bs := one + rest;
    SpelledBack(c);
    PointBytes(c);
    assert bs[..|one|] == one && bs[|one|..] == rest;
    assert Spelled(bs) == Spelled(one);
  }

  /** A cut-off code point is ignored. */
  lemma CutPointIgnored(c: CodePoint, n: nat)
    requires n < Width(c)
    ensures DecodeIgnore(EncodePoint(c)[..n]) == []
  {
    PointBytes(c);
    var bs := EncodePoint(c)[..n];
    if n > 0 {
      assert bs[0] == EncodePoint(c)[0];
      ContinuationsIgnored(bs[1..], []);
      assert bs[1..] + [] == bs[1..];
    }
  }

  /** Stray continuation bytes are ignored. */
  lemma {:induction false} ContinuationsIgnored(stray: Bytes, rest: Bytes)
    requires forall i :: 0 <= i < |stray| ==> IsContinuation(stray[i])
    ensures DecodeIgnore(stray + rest) == DecodeIgnore(rest)
  {
    if stray == [] {
      assert stray + rest == rest;
    } else {
      assert (stray + rest)[1..] == stray[1..] + rest;
      ContinuationsIgnored(stray[1..], rest);
    }
  }

  // ---- Texts ----------------------------------------------------------------------------------

  lemma {:induction false} EncodeConcat(a: Text, b: Text)
    ensures Encode(a + b) == Encode(a) + Encode(b)
  {
    if a == [] {
      assert a + b == b;
    } else {
      assert (a + b)[1..] == a[1..] + b;
      EncodeConcat(a[1..], b);
    }
  }

  /** Round trip. */
  lemma {:induction false} DecodeEncode(t: Text)
    ensures DecodeIgnore(Encode(t)) == t
  {
    if t != [] {
      StartsWithPoint(t[0], Encode(t[1..]));
      DecodeEncode(t[1..]);
    }
  }

  /** The longest prefix of `t` that fits into `n` bytes. */
  function FittingPrefix(t: Text, n: nat): (k: nat)
    ensures k <= |t|
  {
    if t == [] || Width(t[0]) > n then 0 else 1 + FittingPrefix(t[1..], n - Width(t[0]))
  }

  lemma EncodePrefix(t: Text, k: nat)
    requires k < |t|
    ensures t[..k + 1] == [t[0]] + t[1..][..k]
    ensures |Encode(t[..k + 1])| == Width(t[0]) + |Encode(t[1..][..k])|
  {
    assert t[..k + 1][1..] == t[1..][..k];
  }

  /** Cutting the encoding after `n` bytes keeps the longest prefix that fits, and loses at most
      three bytes. */
  lemma {:induction false} CutKeepsPrefix(t: Text, n: nat)
    requires n <= |Encode(t)|
    ensures var k := FittingPrefix(t, n);
            && DecodeIgnore(Encode(t)[..n]) == t[..k]
            && n - 3 <= |Encode(t[..k])| <= n
            && (k < |t| ==> n < |Encode(t[..k])| + Width(t[k]))
  {
    if t != [] {
      var one, rest := EncodePoint(t[0]), Encode(t[1..]);
      if Width(t[0]) > n {
        assert Encode(t)[..n] == one[..n];
        CutPointIgnored(t[0], n);
      } else {
        var m := n - Width(t[0]);
        assert Encode(t)[..n] == one + rest[..m];
        StartsWithPoint(t[0], rest[..m]);
        CutKeepsPrefix(t[1..], m);
        EncodePrefix(t, FittingPrefix(t[1..], m));
      }
    }
  }

  /** Where the first code point begins that lies entirely behind the first `m` bytes. */
  function FirstBehind(t: Text, m: nat): (k: nat)
    ensures k <= |t|
  {
    if t == [] || m == 0 then 0
    else if Width(t[0]) <= m then 1 + FirstBehind(t[1..], m - Width(t[0]))
    else 1
  }

  /** Cutting the first `m` bytes of the encoding keeps the suffix that lies behind them, and loses
      at most three more bytes. */
  lemma {:induction false} CutKeepsSuffix(t: Text, m: nat)
    requires m <= |Encode(t)|
    ensures var k := FirstBehind(t, m);
            && DecodeIgnore(Encode(t)[m..]) == t[k..]
            && |Encode(t)| - m - 3 <= |Encode(t[k..])| <= |Encode(t)| - m
            && (k > 0 ==> |Encode(t[k - 1..])| > |Encode(t)| - m)
  {
    if m == 0 || t == [] {
      DecodeEncode(t);
      assert Encode(t)[m..] == Encode(t)[0..];
    } else {
      var one, rest := EncodePoint(t[0]), Encode(t[1..]);
      if Width(t[0]) <= m {
        assert Encode(t)[m..] == rest[m - Width(t[0])..];
        CutKeepsSuffix(t[1..], m - Width(t[0]));
        var k := FirstBehind(t[1..], m - Width(t[0]));
        assert t[1..][k..] == t[k + 1..];
        assert k > 0 ==> t[1..][k - 1..] == t[k..];
        assert k == 0 ==> t[k..] == t;
      } else {
        PointBytes(t[0]);
        assert Encode(t)[m..] == one[m..] + rest;
        ContinuationsIgnored(one[m..], rest);
        DecodeEncode(t[1..]);
      }
    }
  }

  /** The kept prefix and suffix do not overlap. */
  lemma {:induction false} CutsDoNotOverlap(t: Text, n: nat, m: nat)
    requires n <= m <= |Encode(t)|
    ensures FittingPrefix(t, n) <= FirstBehind(t, m)
  {
    if t != [] && Width(t[0]) <= n {
      CutsDoNotOverlap(t[1..], n - Width(t[0]), m - Width(t[0]));
    }
  }
}
