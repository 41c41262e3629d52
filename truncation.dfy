/**
 * The three ways a label is shortened with an ellipsis when its line-break mode asks
 * for truncation: at the head, at the tail or in the middle. Each first cuts a slice
 * whose length is derived from the style's `MaxWidth` (in characters), then drops one
 * character at a time while the ellipsis-joined string is wider than the pixel budget.
 * The slices follow C# range semantics: an index outside the string throws.
 */
module Truncation {
  import opened Wrappers
  import opened Numerics

  const Ellipsis: string := "..."

  /** `s[a..]`: throws `ArgumentOutOfRangeException` unless `0 <= a <= |s|`. */
  function SliceFrom(s: string, a: int): (r: Result<string>)
    ensures r.Ok? <==> 0 <= a <= |s|
    ensures r.Err? ==> r.error == ArgumentOutOfRangeException
    ensures r.Ok? ==> |r.value| == |s| - a && s == s[..a] + r.value
  {
    if 0 <= a <= |s| then Ok(s[a..]) else Err(ArgumentOutOfRangeException)
  }

  /** `s[..b]`: throws `ArgumentOutOfRangeException` unless `0 <= b <= |s|`. */
  function SliceTo(s: string, b: int): (r: Result<string>)
    ensures r.Ok? <==> 0 <= b <= |s|
    ensures r.Err? ==> r.error == ArgumentOutOfRangeException
    ensures r.Ok? ==> |r.value| == b && s == r.value + s[b..]
  {
    if 0 <= b <= |s| then Ok(s[..b]) else Err(ArgumentOutOfRangeException)
  }

  // ---------------------------------------------------------------------------------
  // The shrink loops, specified

  /** Head truncation drops leading characters while `"..." + r` overflows and more than one is left. */
  function HeadKept(r: string, advance: string -> real, maxWidth: real): (k: string)
    ensures |k| <= |r| && k == r[|r| - |k|..]
    decreases |r|
  {
    if |r| > 1 && advance(Ellipsis + r) > maxWidth then
      var k := HeadKept(r[1..], advance, maxWidth);
      assert r[1..][|r| - 1 - |k|..] == r[|r| - |k|..];
      k
    else r
  }

  /** Tail truncation drops trailing characters while `r + "..."` overflows and more than one is left. */
  function TailKept(r: string, advance: string -> real, maxWidth: real): (k: string)
    ensures |k| <= |r| && k == r[..|k|]
    decreases |r|
  {
    if |r| > 1 && advance(r + Ellipsis) > maxWidth then
      var k := TailKept(r[..|r| - 1], advance, maxWidth);
      assert r[..|r| - 1][..|k|] == r[..|k|];
      k
    else r
  }

  /**
   * Middle truncation drops the last character of the head part and the first of the tail
   * part together while `head + "..." + tail` overflows and both have more than one left.
   */
  function MiddleKept(r1: string, r2: string, advance: string -> real, maxWidth: real): (k: (string, string))
    ensures |k.0| <= |r1| && k.0 == r1[..|k.0|]
    ensures |k.1| <= |r2| && k.1 == r2[|r2| - |k.1|..]
    ensures |r1| - |k.0| == |r2| - |k.1|
    decreases |r1|
  {
    if |r1| > 1 && |r2| > 1 && advance(r1 + Ellipsis + r2) > maxWidth then
      var k := MiddleKept(r1[..|r1| - 1], r2[1..], advance, maxWidth);
      assert r1[..|r1| - 1][..|k.0|] == r1[..|k.0|];
      assert r2[1..][|r2| - 1 - |k.1|..] == r2[|r2| - |k.1|..];
      k
    else (r1, r2)
  }

  /** Head truncation stops with at most one character left or with a suffix that fits with its ellipsis. */
  lemma {:induction false} HeadKeptFits(r: string, advance: string -> real, maxWidth: real)
    ensures var k := HeadKept(r, advance, maxWidth);
            |k| <= 1 || advance(Ellipsis + k) <= maxWidth
    decreases |r|
  {
    if |r| > 1 && advance(Ellipsis + r) > maxWidth {
      HeadKeptFits(r[1..], advance, maxWidth);
    }
  }

  /** The suffix of `r` from index `j` is longer than one character and too wide with its ellipsis. */
  predicate HeadOverflows(r: string, j: int, advance: string -> real, maxWidth: real)
    requires 0 <= j <= |r|
  {
    |r| - j > 1 && advance(Ellipsis + r[j..]) > maxWidth
  }

  /** Every suffix longer than the one head truncation keeps was dropped because it was too wide. */
  lemma {:induction false} HeadKeptDroppedOnlyOverflow(r: string, advance: string -> real, maxWidth: real)
    ensures forall j :: 0 <= j < |r| - |HeadKept(r, advance, maxWidth)| ==> HeadOverflows(r, j, advance, maxWidth)
    decreases |r|
  {
    var k := HeadKept(r, advance, maxWidth);
    if |r| > 1 && advance(Ellipsis + r) > maxWidth {
      assert k == HeadKept(r[1..], advance, maxWidth);
      HeadKeptDroppedOnlyOverflow(r[1..], advance, maxWidth);
      forall j | 0 <= j < |r| - |k|
        ensures HeadOverflows(r, j, advance, maxWidth)
      {
        if j > 0 {
          assert HeadOverflows(r[1..], j - 1, advance, maxWidth);
          assert r[1..][j - 1..] == r[j..];
        } else {
          assert r[0..] == r;
        }
      }
    }
  }

  /** Tail truncation stops with at most one character left or with a prefix that fits with its ellipsis. */
  lemma {:induction false} TailKeptFits(r: string, advance: string -> real, maxWidth: real)
    ensures var k := TailKept(r, advance, maxWidth);
            |k| <= 1 || advance(k + Ellipsis) <= maxWidth
    decreases |r|
  {
    if |r| > 1 && advance(r + Ellipsis) > maxWidth {
      TailKeptFits(r[..|r| - 1], advance, maxWidth);
    }
  }

  /** The prefix of `r` of length `n` is longer than one character and too wide with its ellipsis. */
  predicate TailOverflows(r: string, n: int, advance: string -> real, maxWidth: real)
    requires 0 <= n <= |r|
  {
    n > 1 && advance(r[..n] + Ellipsis) > maxWidth
  }

  /** Every prefix longer than the one tail truncation keeps was dropped because it was too wide. */
  lemma {:induction false} TailKeptDroppedOnlyOverflow(r: string, advance: string -> real, maxWidth: real)
    ensures forall n :: |TailKept(r, advance, maxWidth)| < n <= |r| ==> TailOverflows(r, n, advance, maxWidth)
    decreases |r|
  {
    var k := TailKept(r, advance, maxWidth);
    if |r| > 1 && advance(r + Ellipsis) > maxWidth {
      var r' := r[..|r| - 1];
      assert k == TailKept(r', advance, maxWidth);
      TailKeptDroppedOnlyOverflow(r', advance, maxWidth);
      forall n | |k| < n <= |r|
        ensures TailOverflows(r, n, advance, maxWidth)
      {
        if n < |r| {
          assert TailOverflows(r', n, advance, maxWidth);
          assert r'[..n] == r[..n];
        } else {
          assert r[..n] == r;
        }
      }
    }
  }

  /** Middle truncation stops with a part down to one character or with a joined string that fits. */
  lemma {:induction false} MiddleKeptFits(r1: string, r2: string, advance: string -> real, maxWidth: real)
    ensures var k := MiddleKept(r1, r2, advance, maxWidth);
            |k.0| <= 1 || |k.1| <= 1 || advance(k.0 + Ellipsis + k.1) <= maxWidth
    decreases |r1|
  {
    if |r1| > 1 && |r2| > 1 && advance(r1 + Ellipsis + r2) > maxWidth {
      MiddleKeptFits(r1[..|r1| - 1], r2[1..], advance, maxWidth);
    }
  }

  /** After `j` removals from each part, both parts are longer than one character and the joined string is too wide. */
  predicate MiddleOverflows(r1: string, r2: string, j: int, advance: string -> real, maxWidth: real)
    requires 0 <= j <= |r1| && j <= |r2|
  {
    |r1| - j > 1 && |r2| - j > 1 && advance(r1[..|r1| - j] + Ellipsis + r2[j..]) > maxWidth
  }

  /** Dropping the last character of `r1` and the first of `r2` shifts the removal count by one. */
  lemma MiddleOverflowsShift(r1: string, r2: string, j: int, advance: string -> real, maxWidth: real)
    requires 0 < j <= |r1| && j <= |r2|
    requires MiddleOverflows(r1[..|r1| - 1], r2[1..], j - 1, advance, maxWidth)
    ensures MiddleOverflows(r1, r2, j, advance, maxWidth)
  {
    var a := r1[..|r1| - 1];
    var b := r2[1..];
    assert a[..|a| - (j - 1)] == r1[..|r1| - j];
    assert b[j - 1..] == r2[j..];
  }

  /** Every pair middle truncation dropped, after `j` removals from each part, was too wide. */
  lemma {:induction false} MiddleKeptDroppedOnlyOverflow(r1: string, r2: string, advance: string -> real, maxWidth: real)
    ensures forall j :: 0 <= j < |r1| - |MiddleKept(r1, r2, advance, maxWidth).0| ==>
              j <= |r2| && MiddleOverflows(r1, r2, j, advance, maxWidth)
    decreases |r1|
  {
    var k := MiddleKept(r1, r2, advance, maxWidth);
    if |r1| > 1 && |r2| > 1 && advance(r1 + Ellipsis + r2) > maxWidth {
      var a := r1[..|r1| - 1];
      var b := r2[1..];
      assert k == MiddleKept(a, b, advance, maxWidth);
      MiddleKeptDroppedOnlyOverflow(a, b, advance, maxWidth);
      forall j | 0 <= j < |r1| - |k.0|
        ensures j <= |r2| && MiddleOverflows(r1, r2, j, advance, maxWidth)
      {
        if j > 0 {
          assert 0 <= j - 1 < |a| - |k.0|;
          assert j - 1 <= |b| && MiddleOverflows(a, b, j - 1, advance, maxWidth);
          MiddleOverflowsShift(r1, r2, j, advance, maxWidth);
        } else {
          assert r1[..|r1|] == r1;
          assert r2[0..] == r2;
        }
      }
    }
  }

  // ---------------------------------------------------------------------------------
  // The shrink loops, as the renderer runs them

  method ShrinkHead(start: string, advance: string -> real, maxWidth: real) returns (result: string)
    ensures result == HeadKept(start, advance, maxWidth)
  {
    result := start;
    while |result| > 1 && advance(Ellipsis + result) > maxWidth
      invariant HeadKept(result, advance, maxWidth) == HeadKept(start, advance, maxWidth)
      decreases |result|
    {
      result := result[1..];
    }
  }

  method ShrinkTail(start: string, advance: string -> real, maxWidth: real) returns (result: string)
    ensures result == TailKept(start, advance, maxWidth)
  {
    result := start;
    while |result| > 1 && advance(result + Ellipsis) > maxWidth
      invariant TailKept(result, advance, maxWidth) == TailKept(start, advance, maxWidth)
      decreases |result|
    {
      result := result[..|result| - 1];
    }
  }

  method ShrinkMiddle(start1: string, start2: string, advance: string -> real, maxWidth: real)
    returns (result1: string, result2: string)
    ensures (result1, result2) == MiddleKept(start1, start2, advance, maxWidth)
  {
    result1, result2 := start1, start2;
    while |result1| > 1 && |result2| > 1 && advance(result1 + Ellipsis + result2) > maxWidth
      invariant MiddleKept(result1, result2, advance, maxWidth) == MiddleKept(start1, start2, advance, maxWidth)
      decreases |result1|
    {
      result1 := result1[..|result1| - 1];
      result2 := result2[1..];
    }
  }

  // ---------------------------------------------------------------------------------
  // Whole truncation steps: slice, shrink, join with the ellipsis

  /** The characters head and tail truncation start from: `(int)MaxWidth + 2`. */
  function EndCount(maxWidthEm: real): int
  {
    TruncToInt(maxWidthEm) + 2
  }

  /** The characters each part of middle truncation starts from: `(int)(MaxWidth / 2) + 1`. */
  function HalfCount(maxWidthEm: real): int
  {
    TruncToInt(maxWidthEm / 2.0) + 1
  }

  /** Head truncation: the last `count` characters, shrunk, behind an ellipsis. */
  function HeadTruncated(text: string, count: int, advance: string -> real, maxWidth: real): (r: Result<string>)
    ensures r.Err? <==> !(0 <= count <= |text|)
    ensures r.Err? ==> r.error == ArgumentOutOfRangeException
  {
    match SliceFrom(text, |text| - count)
    case Err(e) => Err(e)
    case Ok(result) => Ok(Ellipsis + HeadKept(result, advance, maxWidth))
  }

  /** Tail truncation: the first `count` characters, shrunk, before an ellipsis. */
  function TailTruncated(text: string, count: int, advance: string -> real, maxWidth: real): (r: Result<string>)
    ensures r.Err? <==> !(0 <= count <= |text|)
    ensures r.Err? ==> r.error == ArgumentOutOfRangeException
  {
    match SliceTo(text, count)
    case Err(e) => Err(e)
    case Ok(result) => Ok(TailKept(result, advance, maxWidth) + Ellipsis)
  }

  /** Middle truncation: the first and the last `count` characters, shrunk together. */
  function MiddleTruncated(text: string, count: int, advance: string -> real, maxWidth: real): (r: Result<string>)
    ensures r.Err? <==> !(0 <= count <= |text|)
    ensures r.Err? ==> r.error == ArgumentOutOfRangeException
  {
    match SliceTo(text, count)
    case Err(e) => Err(e)
    case Ok(result1) =>
      match SliceFrom(text, |text| - count)
      case Err(e) => Err(e)
      case Ok(result2) =>
        var k := MiddleKept(result1, result2, advance, maxWidth);
        Ok(k.0 + Ellipsis + k.1)
  }

  method TruncateHead(text: string, maxWidthEm: real, advance: string -> real, maxWidth: real) returns (r: Result<string>)
    ensures r == HeadTruncated(text, EndCount(maxWidthEm), advance, maxWidth)
  {
    var start := |text| - TruncToInt(maxWidthEm) - 2;
    if !(0 <= start <= |text|) {
      return Err(ArgumentOutOfRangeException);
    }
    var result := ShrinkHead(text[start..], advance, maxWidth);
    r := Ok(Ellipsis + result);
  }

  method TruncateTail(text: string, maxWidthEm: real, advance: string -> real, maxWidth: real) returns (r: Result<string>)
    ensures r == TailTruncated(text, EndCount(maxWidthEm), advance, maxWidth)
  {
    var end := TruncToInt(maxWidthEm) + 2;
    if !(0 <= end <= |text|) {
      return Err(ArgumentOutOfRangeException);
    }
    var result := ShrinkTail(text[..end], advance, maxWidth);
    r := Ok(result + Ellipsis);
  }

  method TruncateMiddle(text: string, maxWidthEm: real, advance: string -> real, maxWidth: real) returns (r: Result<string>)
    ensures r == MiddleTruncated(text, HalfCount(maxWidthEm), advance, maxWidth)
  {
    var end := TruncToInt(maxWidthEm / 2.0) + 1;
    if !(0 <= end <= |text|) {
      return Err(ArgumentOutOfRangeException);
    }
    var start := |text| - TruncToInt(maxWidthEm / 2.0) - 1;
    assert SliceTo(text, end) == Ok(text[..end]);
    assert SliceFrom(text, start) == Ok(text[start..]);
    var result1, result2 := ShrinkMiddle(text[..end], text[start..], advance, maxWidth);
    r := Ok(result1 + Ellipsis + result2);
  }

  // ---------------------------------------------------------------------------------
  // What a successful truncation produces

  /**
   * Successful head truncation yields the ellipsis and then the last `m` characters of the
   * text, with `m` at most `count`, and `m` is at most one or the result fits.
   */
  lemma HeadTruncationResult(text: string, count: int, advance: string -> real, maxWidth: real)
    returns (m: int)
    ensures var r := HeadTruncated(text, count, advance, maxWidth);
            r.Ok? ==>
              0 <= m <= count && m <= |text| &&
              r.value == Ellipsis + text[|text| - m..] &&
              (m <= 1 || advance(r.value) <= maxWidth)
  {
    m := 0;
    var r := HeadTruncated(text, count, advance, maxWidth);
    if r.Ok? {
      var n := count;
      var result := text[|text| - n..];
      assert SliceFrom(text, |text| - n) == Ok(result);
      var k := HeadKept(result, advance, maxWidth);
      assert r == Ok(Ellipsis + k);
      HeadKeptFits(result, advance, maxWidth);
      m := |k|;
      assert |result| == n;
      assert k == result[n - m..];
      SuffixOfSuffix(text, n, m);
      assert k == text[|text| - m..];
      assert r.value == Ellipsis + text[|text| - m..];
      assert m <= 1 || advance(r.value) <= maxWidth;
    }
  }

  /**
   * Successful tail truncation yields the first `m` characters of the text and then the
   * ellipsis, with `m` at most `count`, and `m` is at most one or the result fits.
   */
  lemma TailTruncationResult(text: string, count: int, advance: string -> real, maxWidth: real)
    returns (m: int)
    ensures var r := TailTruncated(text, count, advance, maxWidth);
            r.Ok? ==>
              0 <= m <= count && m <= |text| &&
              r.value == text[..m] + Ellipsis &&
              (m <= 1 || advance(r.value) <= maxWidth)
  {
    m := 0;
    var r := TailTruncated(text, count, advance, maxWidth);
    if r.Ok? {
      var n := count;
      var result := text[..n];
      assert SliceTo(text, n) == Ok(result);
      var k := TailKept(result, advance, maxWidth);
      assert r == Ok(k + Ellipsis);
      TailKeptFits(result, advance, maxWidth);
      m := |k|;
      PrefixOfPrefix(text, n, m);
    }
  }

  lemma PrefixOfPrefix(t: string, n: int, h: int)
    requires 0 <= h <= n <= |t|
    ensures t[..n][..h] == t[..h]
  {
  }

  lemma SuffixOfSuffix(t: string, n: int, h: int)
    requires 0 <= h <= n <= |t|
    ensures t[|t| - n..][n - h..] == t[|t| - h..]
  {
  }

  /**
   * Successful middle truncation yields the first and the last `h` characters of the text
   * (the same number from each end, `h` at most `count`) joined by the
   * ellipsis, and `h` is at most one or the result fits.
   */
  lemma MiddleTruncationResult(text: string, count: int, advance: string -> real, maxWidth: real)
    returns (h: int)
    ensures var r := MiddleTruncated(text, count, advance, maxWidth);
            r.Ok? ==>
              0 <= h <= count && h <= |text| &&
              r.value == text[..h] + Ellipsis + text[|text| - h..] &&
              (h <= 1 || advance(r.value) <= maxWidth)
  {
    h := 0;
    var r := MiddleTruncated(text, count, advance, maxWidth);
    if r.Ok? {
      var n := count;
      var result1 := text[..n];
      var result2 := text[|text| - n..];
      assert SliceTo(text, n) == Ok(result1);
      assert SliceFrom(text, |text| - n) == Ok(result2);
      var k := MiddleKept(result1, result2, advance, maxWidth);
      assert r == Ok(k.0 + Ellipsis + k.1);
      MiddleKeptFits(result1, result2, advance, maxWidth);
      h := |k.0|;
      PrefixOfPrefix(text, n, h);
      SuffixOfSuffix(text, n, h);
    }
  }
}
