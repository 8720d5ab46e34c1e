/** Fixed-width splitting, as the ingestion script does it twice: `chunk_text`
    cuts an article's text into pieces of at most `max_chars` characters, and
    the embedding loop cuts the list of chunks into batches of 16. */
module Chunking {

  /** The pieces a fixed-width splitter cuts `s` into: consecutive slices of
      `width` elements, the last one possibly shorter. */
  function Split<T>(s: seq<T>, width: nat): seq<seq<T>>
    requires width > 0
    decreases |s|
  {
    if |s| == 0 then []
    else
      var n := if |s| < width then |s| else width;
      [s[..n]] + Split(s[n..], width)
  }

  /** The concatenation of the pieces, in order. */
  function Flatten<T>(ss: seq<seq<T>>): seq<T>
    decreases |ss|
  {
    if |ss| == 0 then [] else ss[0] + Flatten(ss[1..])
  }

  /** Flattening grows at the end as the list of pieces does. */
  lemma {:induction false} FlattenSnoc<T>(ss: seq<seq<T>>, s: seq<T>)
    ensures Flatten(ss + [s]) == Flatten(ss) + s
    decreases |ss|
  {
    if |ss| == 0 {
      assert ss + [s] == [s];
      assert Flatten([s]) == s + Flatten([s][1..]);
    } else {
      FlattenSnoc(ss[1..], s);
      assert (ss + [s])[1..] == ss[1..] + [s];
    }
  }

  /** Concatenating the pieces gives back the input exactly. */
  lemma {:induction false} SplitFlatten<T>(s: seq<T>, width: nat)
    requires width > 0
    ensures Flatten(Split(s, width)) == s
    decreases |s|
  {
    if |s| > 0 {
      var n := if |s| < width then |s| else width;
      SplitFlatten(s[n..], width);
      assert ([s[..n]] + Split(s[n..], width))[1..] == Split(s[n..], width);
      assert s[..n] + s[n..] == s;
    }
  }

  /** Every piece is non-empty and at most `width` long, and every piece but the
      last is exactly `width` long. */
  lemma {:induction false} SplitPieces<T>(s: seq<T>, width: nat)
    requires width > 0
    ensures forall i :: 0 <= i < |Split(s, width)| ==> 0 < |Split(s, width)[i]| <= width
    ensures forall i :: 0 <= i < |Split(s, width)| - 1 ==> |Split(s, width)[i]| == width
    decreases |s|
  {
    if |s| > 0 {
      var n := if |s| < width then |s| else width;
      var rest := Split(s[n..], width);
      SplitPieces(s[n..], width);
      assert Split(s, width) == [s[..n]] + rest;
      assert n < width ==> rest == [];
      forall i | 0 < i < |Split(s, width)| ensures Split(s, width)[i] == rest[i - 1] { }
    }
  }

  /** The number of pieces is the least count whose full-width pieces would hold
      the input: `ceil(|s| / width)`. */
  lemma {:induction false} SplitCountBounds<T>(s: seq<T>, width: nat)
    requires width > 0
    ensures |Split(s, width)| * width >= |s|
    ensures |s| > 0 ==> (|Split(s, width)| - 1) * width < |s|
    ensures |s| == 0 ==> Split(s, width) == []
    decreases |s|
  {
    if |s| > 0 {
      var n := if |s| < width then |s| else width;
      var m := |Split(s[n..], width)|;
      SplitCountBounds(s[n..], width);
      assert |Split(s, width)| == m + 1;
      CountStep(m, width, |s|, n);
    }
  }

  /** The arithmetic of one step of `SplitCountBounds`: a first piece of `n`
      elements, and `m` pieces for the remaining `len - n`. */
  lemma CountStep(m: int, w: int, len: int, n: int)
    requires w > 0 && 0 < n <= w && n <= len && m >= 0
    requires m * w >= len - n
    requires len - n > 0 ==> (m - 1) * w < len - n
    requires len - n == 0 ==> m == 0
    requires n < w ==> len == n
    ensures (m + 1) * w >= len
    ensures m * w < len
  {
    assert (m + 1) * w == m * w + w;
    if len - n > 0 {
      assert (m - 1) * w == m * w - w;
    }
  }

  /** The same count, with the division written out. */
  lemma SplitCount<T>(s: seq<T>, width: nat)
    requires width > 0
    ensures |Split(s, width)| == (|s| + width - 1) / width
  {
    var c := |Split(s, width)|;
    SplitCountBounds(s, width);
    if |s| == 0 {
      assert (width - 1) / width == 0;
    } else {
      // c * width >= |s| > (c - 1) * width, so |s| + width - 1 lies in [c * width, c * width + width)
      var x := |s| + width - 1;
      assert c * width <= x < c * width + width;
      DivUnique(x, width, c);
    }
  }

  /** `q` is the quotient of `x` by `w` when `x` lies in the `q`-th window of width `w`. */
  lemma DivUnique(x: int, w: int, q: int)
    requires w > 0 && q * w <= x < q * w + w
    ensures x / w == q && x % w == x - q * w
  {
    var q', r' := x / w, x % w;
    assert x == q' * w + r' && 0 <= r' < w;
    var d := q' - q;
    assert d * w == q' * w - q * w;
    if d >= 1 {
      MulAtLeast(d, w);
      assert false;
    } else if d <= -1 {
      MulAtLeast(-d, w);
      assert false;
    }
  }

  /** A factor of at least one keeps a positive number at least as large. */
  lemma MulAtLeast(d: int, w: int)
    requires d >= 1 && w > 0
    ensures d * w >= w
  {
    assert d * w == (d - 1) * w + w;
    assert (d - 1) * w >= 0;
  }

  /** Piece `b` is the slice of the input that starts at `b * width`. */
  lemma {:induction false} SplitAt<T>(s: seq<T>, width: nat, b: nat)
    requires width > 0 && b < |Split(s, width)|
    ensures b * width < |s|
    ensures Split(s, width)[b] == s[b * width .. if (b + 1) * width < |s| then (b + 1) * width else |s|]
    decreases |s|
  {
    var n := if |s| < width then |s| else width;
    if b > 0 {
      var rest := s[n..];
      assert Split(s, width) == [s[..n]] + Split(rest, width);
      assert |Split(rest, width)| > 0 && n == width;
      SplitAt(rest, width, b - 1);
      var lo := (b - 1) * width;
      var hi := if b * width < |rest| then b * width else |rest|;
      assert lo + width == b * width && b * width + width == (b + 1) * width;
      assert rest[lo..hi] == s[lo + width .. hi + width];
    }
  }

  /** A list of pieces of which all but the last have `width` elements: element
      `k` of the flattening is element `k % width` of piece `k / width`. */
  lemma {:induction false} FlattenUniform<T>(ss: seq<seq<T>>, width: nat, k: nat)
    requires width > 0
    requires forall b :: 0 <= b < |ss| ==> |ss[b]| <= width
    requires forall b :: 0 <= b < |ss| - 1 ==> |ss[b]| == width
    requires k < |Flatten(ss)|
    ensures k / width < |ss| && k % width < |ss[k / width]|
    ensures Flatten(ss)[k] == ss[k / width][k % width]
    decreases |ss|
  {
    assert |ss| > 0;
    if k < |ss[0]| {
      DivUnique(k, width, 0);
    } else {
      var rest := ss[1..];
      assert |ss| > 1 && |ss[0]| == width;
      assert Flatten(ss) == ss[0] + Flatten(rest);
      FlattenUniform(rest, width, k - width);
      DivStep(k, width);
      assert rest[(k - width) / width] == ss[k / width];
    }
  }

  /** Taking one window off the front lowers the quotient by one and keeps the remainder. */
  lemma DivStep(k: int, w: int)
    requires w > 0 && k >= w
    ensures (k - w) / w + 1 == k / w && (k - w) % w == k % w
  {
    var q := (k - w) / w;
    assert q * w <= k - w < q * w + w;
    assert (q + 1) * w == q * w + w;
    DivUnique(k, w, q + 1);
  }

  /** Element `idx` of piece `j` sits in the flattening right after all the
      pieces before `j`. */
  lemma {:induction false} FlattenAt<T>(ss: seq<seq<T>>, j: nat, idx: nat)
    requires j < |ss| && idx < |ss[j]|
    ensures |Flatten(ss[..j])| + idx < |Flatten(ss)|
    ensures Flatten(ss)[|Flatten(ss[..j])| + idx] == ss[j][idx]
    decreases j
  {
    assert Flatten(ss) == ss[0] + Flatten(ss[1..]);
    if j == 0 {
      assert ss[..0] == [];
    } else {
      FlattenAt(ss[1..], j - 1, idx);
      assert ss[..j][1..] == ss[1..][..j - 1];
      assert Flatten(ss[..j]) == ss[0] + Flatten(ss[1..][..j - 1]);
    }
  }

  /** Two lists of pieces of the same shape flatten to sequences of the same length. */
  lemma {:induction false} FlattenSameShape<T, U>(ss: seq<seq<T>>, tt: seq<seq<U>>)
    requires |ss| == |tt|
    requires forall b :: 0 <= b < |ss| ==> |ss[b]| == |tt[b]|
    ensures |Flatten(ss)| == |Flatten(tt)|
    decreases |ss|
  {
    if |ss| > 0 {
      FlattenSameShape(ss[1..], tt[1..]);
    }
  }

  /** Unfolding the splitter at any position: what is left from `i` on is one
      piece of up to `width` elements followed by the pieces of the rest. */
  lemma SplitFrom<T>(s: seq<T>, width: nat, i: nat)
    requires width > 0 && i < |s|
    ensures var end := if i + width < |s| then i + width else |s|;
            Split(s[i..], width) == [s[i..end]] + Split(s[end..], width)
  {
    var end := if i + width < |s| then i + width else |s|;
    assert s[i..][..end - i] == s[i..end];
    assert s[i..][end - i..] == s[end..];
  }

  /** `chunk_text(text, max_chars)`: walk the text `max_chars` characters at a
      time and collect the slices. Empty text gives no chunk whatever the
      width. On non-empty text a zero `max_chars` never advances the index
      and a negative one moves it backwards, so the source loops forever;
      the model requires a positive width. */
  method ChunkText(text: string, maxChars: int) returns (chunks: seq<string>)
    requires maxChars > 0
    ensures chunks == Split(text, maxChars)
    ensures Flatten(chunks) == text
    ensures forall i :: 0 <= i < |chunks| ==> 0 < |chunks[i]| <= maxChars
    ensures forall i :: 0 <= i < |chunks| - 1 ==> |chunks[i]| == maxChars
    ensures |chunks| == (|text| + maxChars - 1) / maxChars
  {
    chunks := [];
    var i := 0;
    while i < |text|
      invariant 0 <= i
      invariant chunks + Split(text[if i < |text| then i else |text|..], maxChars) == Split(text, maxChars)
      decreases |text| - i
    {
      // text[i:i+max_chars], clamped at the end of the text
      var end := if i + maxChars < |text| then i + maxChars else |text|;
      var chunk := text[i..end];
      SplitFrom(text, maxChars, i);
      assert (chunks + [chunk]) + Split(text[end..], maxChars) == chunks + ([chunk] + Split(text[end..], maxChars));
      chunks := chunks + [chunk];
      i := i + maxChars;
    }
    assert text[|text|..] == [];
    assert chunks + [] == chunks;
    SplitFlatten(text, maxChars);
    SplitPieces(text, maxChars);
    SplitCount(text, maxChars);
  }
}
