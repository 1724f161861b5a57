// Shared vocabulary: machine integers, bytes, results, and the two pieces of
// the Go library whose exact behaviour the merger relies on (trimming, hex).
module Prelude {

  // Go's int64. Every operation on this type is checked to stay in range.
  newtype int64 = x: int | -0x8000_0000_0000_0000 <= x <= 0x7fff_ffff_ffff_ffff

  const MAX_INT64: int := 0x7fff_ffff_ffff_ffff

  // Two's complement wrap-around of Go's int64 arithmetic.
  function Wrap(x: int): int64 {
    var low := x % 0x1_0000_0000_0000_0000;
    if low > MAX_INT64 then (low - 0x1_0000_0000_0000_0000) as int64 else low as int64
  }

  // The wrapped value is the one int64 that differs from x by a multiple of 2^64.
  lemma WrapIff(x: int, y: int64)
    ensures y == Wrap(x) <==> (x - y as int) % 0x1_0000_0000_0000_0000 == 0
  {
  }

  lemma WrapOf(x: int)
    requires 0 <= x < 0x1_0000_0000_0000_0000
    ensures Wrap(x) as int == if x <= MAX_INT64 then x else x - 0x1_0000_0000_0000_0000
  {
  }

  newtype byte = x: int | 0 <= x < 256

  type bytes = seq<byte>

  datatype Option<+T> = None | Some(value: T)

  datatype Result<+T, +E> = Success(value: T) | Failure(error: E)

  // The code points Go's unicode.IsSpace accepts.
  predicate IsSpace(c: char) {
    var code := c as int;
    || 0x09 <= code <= 0x0d
    || code in {0x20, 0x85, 0xa0, 0x1680, 0x2028, 0x2029, 0x202f, 0x205f, 0x3000}
    || 0x2000 <= code <= 0x200a
  }

  predicate AllSpace(s: string) {
    forall i :: 0 <= i < |s| ==> IsSpace(s[i])
  }

  function TrimLeft(s: string): (r: string)
    ensures |r| <= |s| && r == s[|s| - |r|..] && AllSpace(s[..|s| - |r|])
    ensures r == "" || !IsSpace(r[0])
  {
    if s != "" && IsSpace(s[0]) then TrimLeft(s[1..]) else s
  }

  function TrimRight(s: string): (r: string)
    ensures |r| <= |s| && r == s[..|r|] && AllSpace(s[|r|..])
    ensures r == "" || !IsSpace(r[|r| - 1])
  {
    if s != "" && IsSpace(s[|s| - 1]) then TrimRight(s[..|s| - 1]) else s
  }

  // strings.TrimSpace
  function TrimSpace(s: string): string {
    TrimRight(TrimLeft(s))
  }

  // What trimming means, without saying how: `r` is `s` between two runs of
  // spaces, and neither begins nor ends with one.
  ghost predicate IsTrimOf(s: string, r: string) {
    && (r == "" || (!IsSpace(r[0]) && !IsSpace(r[|r| - 1])))
    && exists a, b :: AllSpace(a) && AllSpace(b) && s == a + r + b
  }

  // Exactly one text is the trimmed one, and TrimSpace finds it.
  lemma TrimSpaceIff(s: string, r: string)
    ensures IsTrimOf(s, r) <==> r == TrimSpace(s)
  {
    TrimSpaceTrims(s);
    if IsTrimOf(s, r) {
      OneTrim(s, r, TrimSpace(s));
    }
  }

  lemma TrimSpaceEmpty(s: string)
    ensures TrimSpace(s) == "" <==> AllSpace(s)
  {
    TrimSpaceIff(s, "");
    assert AllSpace("") && s == s + "" + "";
  }

  lemma TrimSpaceTrims(s: string)
    ensures IsTrimOf(s, TrimSpace(s))
  {
    hide TrimLeft, TrimRight, IsSpace, AllSpace, IsTrimOf;
    Between(s, TrimLeft(s), TrimSpace(s));
  }

  lemma Between(s: string, t: string, r: string)
    requires |t| <= |s| && t == s[|s| - |t|..] && AllSpace(s[..|s| - |t|])
    requires |r| <= |t| && r == t[..|r|] && AllSpace(t[|r|..])
    requires (t == "" || !IsSpace(t[0])) && (r == "" || !IsSpace(r[|r| - 1]))
    ensures IsTrimOf(s, r)
  {
    hide IsSpace, AllSpace;
    var a, b := s[..|s| - |t|], t[|r|..];
    assert s == a + t == a + (r + b) == a + r + b;
    assert r != "" ==> r[0] == t[0];
  }

  lemma OneTrim(s: string, x: string, y: string)
    requires IsTrimOf(s, x) && IsTrimOf(s, y)
    ensures x == y
  {
    var a, b :| AllSpace(a) && AllSpace(b) && s == a + x + b;
    var c, d :| AllSpace(c) && AllSpace(d) && s == c + y + d;
    SameMargin(a, x, b, c, y, d);
    SameMargin(c, y, d, a, x, b);
    assert x == y == "" || (s[|a|..|a| + |x|] == x && s[|c|..|c| + |y|] == y);
  }

  // A text that is not all space starts and stops where the other does.
  lemma SameMargin(a: string, x: string, b: string, c: string, y: string, d: string)
    requires a + x + b == c + y + d && AllSpace(a) && AllSpace(b) && AllSpace(c) && AllSpace(d)
    requires x == "" || (!IsSpace(x[0]) && !IsSpace(x[|x| - 1]))
    ensures x != "" ==> |c| <= |a| && |a| + |x| <= |c| + |y|
  {
    var s, last := a + x + b, |a| + |x| - 1;
    assert forall k :: 0 <= k < |c| ==> s[k] == c[k];
    assert forall k :: |c| + |y| <= k < |s| ==> s[k] == d[k - |c| - |y|];
    if x != "" {
      assert !IsSpace(s[|a|]) && !IsSpace(s[last]);
    }
  }

  lemma TrimSpaceIdempotent(s: string)
    ensures TrimSpace(TrimSpace(s)) == TrimSpace(s)
  {
    var r := TrimSpace(s);
    TrimSpaceTrims(s);
    hide IsSpace, TrimSpace;
    assert AllSpace("") && r == "" + r + "";
    TrimSpaceIff(r, r);
  }

  predicate IsHexDigit(c: char) {
    '0' <= c <= '9' || 'a' <= c <= 'f' || 'A' <= c <= 'F'
  }

  function HexValue(c: char): int
    requires IsHexDigit(c)
    ensures 0 <= HexValue(c) < 16
  {
    if c <= '9' then c as int - '0' as int
    else if c <= 'F' then c as int - 'A' as int + 10
    else c as int - 'a' as int + 10
  }

  // hex.DecodeString
  function HexDecode(s: string): Option<bytes> {
    if s == "" then Some([])
    else if |s| == 1 || !IsHexDigit(s[0]) || !IsHexDigit(s[1]) then None
    else
      var rest := HexDecode(s[2..]);
      if rest.None? then None else Some([(16 * HexValue(s[0]) + HexValue(s[1])) as byte] + rest.value)
  }

  // The text of a 32-byte digest: pairs of hexadecimal digits of either case.
  predicate IsDigestText(s: string) {
    |s| == 64 && forall i :: 0 <= i < |s| ==> IsHexDigit(s[i])
  }

  lemma IsDigestTextIff(s: string)
    ensures IsDigestText(s) <==> HexDecode(s).Some? && |HexDecode(s).value| == 32
  {
    HexDecodes(s);
  }

  lemma {:induction false} HexDecodes(s: string)
    ensures HexDecode(s).Some? <==> |s| % 2 == 0 && forall i :: 0 <= i < |s| ==> IsHexDigit(s[i])
    ensures HexDecode(s).Some? ==> 2 * |HexDecode(s).value| == |s|
  {
    if |s| >= 2 {
      HexDecodes(s[2..]);
      assert forall i :: 2 <= i < |s| ==> s[i] == s[2..][i - 2];
    }
  }

  // hex.EncodeToString
  function HexEncode(data: bytes): string {
    if data == [] then ""
    else [HexDigit(data[0] as int / 16), HexDigit(data[0] as int % 16)] + HexEncode(data[1..])
  }

  function HexDigit(n: int): (c: char)
    requires 0 <= n < 16
    ensures IsHexDigit(c) && HexValue(c) == n && ('0' <= c <= '9' || 'a' <= c <= 'f')
  {
    if n < 10 then '0' + n as char else 'a' + (n - 10) as char
  }

  lemma {:induction false} HexRoundTrip(data: bytes)
    ensures HexDecode(HexEncode(data)) == Some(data)
  {
    if data != [] {
      HexRoundTrip(data[1..]);
      assert HexEncode(data)[2..] == HexEncode(data[1..]);
      assert data == [data[0]] + data[1..];
    }
  }

  // So the digests the code writes are digest texts.
  lemma EncodedDigest(sum: bytes)
    requires |sum| == 32
    ensures IsDigestText(HexEncode(sum))
  {
    HexRoundTrip(sum);
    IsDigestTextIff(HexEncode(sum));
  }

  // Go's < on strings.
  predicate StringLess(a: string, b: string) {
    if b == "" then false
    else if a == "" then true
    else if a[0] != b[0] then a[0] < b[0]
    else StringLess(a[1..], b[1..])
  }

  // The two texts agree up to k, where the second goes on with a later character.
  ghost predicate LessAt(a: string, b: string, k: nat) {
    && k <= |a| && k < |b| && (forall i :: 0 <= i < k ==> a[i] == b[i])
    && (k < |a| ==> a[k] < b[k])
  }

  lemma {:induction false} StringLessIff(a: string, b: string)
    ensures StringLess(a, b) <==> exists k: nat :: LessAt(a, b, k)
  {
    if a == "" || b == "" || a[0] != b[0] {
      assert StringLess(a, b) ==> LessAt(a, b, 0);
    } else {
      var x, y := a[1..], b[1..];
      StringLessIff(x, y);
      if k: nat :| LessAt(x, y, k) {
        assert forall i :: 1 <= i <= k ==> a[i] == x[i - 1] && b[i] == y[i - 1];
        assert LessAt(a, b, k + 1);
      }
      if k: nat :| LessAt(a, b, k) {
        assert k > 0 && LessAt(x, y, k - 1);
      }
    }
  }

  lemma {:induction false} StringLessTransitive(a: string, b: string, c: string)
    requires StringLess(a, b) && StringLess(b, c)
    ensures StringLess(a, c)
  {
    if a == "" || a[0] != b[0] || b[0] != c[0] {
    } else {
      StringLessTransitive(a[1..], b[1..], c[1..]);
    }
  }

  lemma {:induction false} StringLessAsymmetric(a: string, b: string)
    requires StringLess(a, b)
    ensures !StringLess(b, a)
  {
    if a == "" || a[0] != b[0] {
    } else {
      StringLessAsymmetric(a[1..], b[1..]);
    }
  }

  lemma {:induction false} StringLessTotal(a: string, b: string)
    requires !StringLess(a, b) && !StringLess(b, a)
    ensures a == b
  {
    if a == "" || b == "" {
    } else {
      StringLessTotal(a[1..], b[1..]);
      assert a == [a[0]] + a[1..] && b == [b[0]] + b[1..];
    }
  }
}
