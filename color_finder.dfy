/**
 * The dominant-colour finder: hex formatting, the HSV index sort, the brightness clamp,
 * the cluster histogram and the ordering of clusters by share.  Downloading and decoding
 * the image, KMeans and the cv2 colour conversions are inputs.
 */
module ColorFinder {
  import opened Wrappers

  /** A numpy uint8 channel. */
  type uint8 = x: int | 0 <= x < 256

  /** Three channels: B, G, R or R, G, B or H, S, V, depending on where it comes from. */
  datatype Triple = Triple(c0: uint8, c1: uint8, c2: uint8)

  function Channels(t: Triple): seq<uint8> { [t.c0, t.c1, t.c2] }

  // ---------------------------------------------------------------- _hextriplet

  const HexDigits: string := "0123456789ABCDEF"

  function HexPair(x: uint8): string
  {
    [HexDigits[x / 16], HexDigits[x % 16]]
  }

  /** `''.join(f"{i:02X}" for i in cs)`. */
  function HexBody(cs: seq<uint8>): (s: string)
    ensures |s| == 2 * |cs|
    ensures forall i :: 0 <= i < |s| ==> s[i] in HexDigits
  {
    if |cs| == 0 then "" else HexPair(cs[0]) + HexBody(cs[1..])
  }

  /** `_hextriplet`: "#" followed by two upper-case hex digits per channel. */
  function HexTriplet(cs: seq<uint8>): string
  {
    "#" + HexBody(cs)
  }

  /** A CSS colour "#RRGGBB" in upper case. */
  predicate IsHexColor(s: string)
  {
    |s| == 7 && s[0] == '#' && forall i :: 1 <= i < 7 ==> s[i] in HexDigits
  }

  lemma HexTripletIsColor(t: Triple)
    ensures IsHexColor(HexTriplet(Channels(t)))
  {
    var s := HexTriplet(Channels(t));
    assert s[1..] == HexBody(Channels(t));
    assert forall i :: 1 <= i < 7 ==> s[i] == s[1..][i - 1];
  }

  function HexValue(c: char): (v: Option<uint8>)
    ensures v.Some? ==> v.value < 16
  {
    if '0' <= c <= '9' then Some(c as int - '0' as int)
    else if 'A' <= c <= 'F' then Some(c as int - 'A' as int + 10)
    else None
  }

  function ParseHexBody(s: string): Option<seq<uint8>>
  {
    if |s| == 0 then Some([])
    else if |s| == 1 then None
    else
      var hi, lo, rest := HexValue(s[0]), HexValue(s[1]), ParseHexBody(s[2..]);
      if hi.None? || lo.None? || rest.None? then None
      else Some([16 * hi.value + lo.value] + rest.value)
  }

  /** Reads a "#..." hex colour back into its channels: the inverse of HexTriplet. */
  function ParseHexTriplet(s: string): Option<seq<uint8>>
  {
    if |s| > 0 && s[0] == '#' then ParseHexBody(s[1..]) else None
  }

  lemma HexDigitValue(d: int)
    requires 0 <= d < 16
    ensures HexValue(HexDigits[d]) == Some(d)
  {
    if d < 10 {} else {}
  }

  lemma PairValue(x: uint8)
    ensures HexValue(HexPair(x)[0]) == Some(x / 16) && HexValue(HexPair(x)[1]) == Some(x % 16)
  {
    HexDigitValue(x / 16);
    HexDigitValue(x % 16);
  }

  lemma {:induction false} HexBodyRoundTrip(cs: seq<uint8>)
    ensures ParseHexBody(HexBody(cs)) == Some(cs)
  {
    if |cs| > 0 {
      var x := cs[0];
      HexBodyRoundTrip(cs[1..]);
      assert HexBody(cs) == HexPair(x) + HexBody(cs[1..]);
      ParsePair(x, HexBody(cs[1..]), cs[1..]);
      assert [x] + cs[1..] == cs;
    }
  }

  /** A pair of digits followed by parsable text parses to its channel followed by the rest. */
  lemma ParsePair(x: uint8, rest: string, tail: seq<uint8>)
    requires ParseHexBody(rest) == Some(tail)
    ensures ParseHexBody(HexPair(x) + rest) == Some([x] + tail)
  {
    var s := HexPair(x) + rest;
    assert s[0] == HexPair(x)[0] && s[1] == HexPair(x)[1] && s[2..] == rest;
    PairValue(x);
    DivMod16(x);
  }

  lemma DivMod16(x: uint8)
    ensures 16 * (x / 16) + x % 16 == x
  {
  }

  /** Parsing the digits of a hex triplet recovers the channels. */
  lemma HexTripletRoundTrip(cs: seq<uint8>)
    ensures ParseHexTriplet(HexTriplet(cs)) == Some(cs)
  {
    HexBodyRoundTrip(cs);
    assert HexTriplet(cs)[1..] == HexBody(cs);
  }

  // ---------------------------------------------------------------- stable sorting

  /** Index a goes before index b in Python's stable ascending sort on keys. */
  predicate Before(keys: seq<int>, a: nat, b: nat)
    requires a < |keys| && b < |keys|
  {
    keys[a] < keys[b] || (keys[a] == keys[b] && a < b)
  }

  /** idx holds every index of keys once, in the order of a stable ascending sort by key. */
  predicate StablyOrdered(keys: seq<int>, idx: seq<nat>)
  {
    && |idx| == |keys|
    && (forall i :: 0 <= i < |idx| ==> idx[i] < |keys|)
    && (forall x: nat :: x < |keys| ==> x in idx)
    && (forall i, j :: 0 <= i < j < |idx| ==> Before(keys, idx[i], idx[j]))
  }

  /** The indices of keys sorted by key, equal keys keeping their index order. */
  method StableSortIndices(keys: seq<int>) returns (idx: seq<nat>)
    ensures StablyOrdered(keys, idx)
  {
    idx := [];
    var k := 0;
    while k < |keys|
      invariant 0 <= k <= |keys|
      invariant SortedPrefix(keys, idx, k)
    {
      var p := InsertionPoint(keys, idx, k);
      InsertKeepsSorted(keys, idx, k, p);
      idx := idx[..p] + [k] + idx[p..];
      k := k + 1;
    }
  }

  /** idx stably sorts the indices below k. */
  predicate SortedPrefix(keys: seq<int>, idx: seq<nat>, k: nat)
  {
    && k <= |keys|
    && |idx| == k
    && (forall i :: 0 <= i < |idx| ==> idx[i] < k)
    && (forall x: nat :: x < k ==> x in idx)
    && (forall i, j :: 0 <= i < j < |idx| ==> Before(keys, idx[i], idx[j]))
  }

  /** The first place whose key is above keys[k]: after it come only larger keys. */
  method InsertionPoint(keys: seq<int>, idx: seq<nat>, k: nat) returns (p: nat)
    requires k < |keys| && SortedPrefix(keys, idx, k)
    ensures p <= |idx|
    ensures forall q :: 0 <= q < p ==> keys[idx[q]] <= keys[k]
    ensures forall q :: p <= q < |idx| ==> keys[idx[q]] > keys[k]
  {
    p := 0;
    while p < |idx| && keys[idx[p]] <= keys[k]
      invariant 0 <= p <= |idx|
      invariant forall q :: 0 <= q < p ==> keys[idx[q]] <= keys[k]
    {
      p := p + 1;
    }
    forall q | p <= q < |idx| ensures keys[idx[q]] > keys[k] {
      if q > p { assert Before(keys, idx[p], idx[q]); }
    }
  }

  /** Inserting index k at its insertion point sorts the indices below k + 1. */
  lemma InsertKeepsSorted(keys: seq<int>, idx: seq<nat>, k: nat, p: nat)
    requires k < |keys| && SortedPrefix(keys, idx, k) && p <= |idx|
    requires forall q :: 0 <= q < p ==> keys[idx[q]] <= keys[k]
    requires forall q :: p <= q < |idx| ==> keys[idx[q]] > keys[k]
    ensures SortedPrefix(keys, idx[..p] + [k] + idx[p..], k + 1)
  {
    var next := idx[..p] + [k] + idx[p..];
    assert next[p] == k;
    assert forall i :: 0 <= i < p ==> next[i] == idx[i];
    assert forall i :: p < i < |next| ==> next[i] == idx[i - 1];
    forall x: nat | x < k ensures x in next {
      assert x in idx;
      var i :| 0 <= i < |idx| && idx[i] == x;
      if i < p { assert next[i] == x; } else { assert next[i + 1] == x; }
    }
  }

  lemma StablyOrderedDistinct(keys: seq<int>, idx: seq<nat>, i: int, j: int)
    requires StablyOrdered(keys, idx)
    requires 0 <= i < j < |idx|
    ensures idx[i] != idx[j]
  {
    assert Before(keys, idx[i], idx[j]);
  }

  lemma StepAgree(keys: seq<int>, a: seq<nat>, b: seq<nat>, i: nat)
    requires StablyOrdered(keys, a) && StablyOrdered(keys, b)
    requires i < |a| && a[..i] == b[..i]
    ensures a[i] == b[i]
  {
    assert b[i] in a && a[i] in b;
    var k :| 0 <= k < |a| && a[k] == b[i];
    var j :| 0 <= j < |b| && b[j] == a[i];
    forall q | 0 <= q < i ensures a[q] != b[i] && b[q] != a[i] {
      assert a[q] == a[..i][q] == b[..i][q] == b[q];
      StablyOrderedDistinct(keys, b, q, i);
      StablyOrderedDistinct(keys, a, q, i);
    }
  }

  lemma {:induction false} AgreeFrom(keys: seq<int>, a: seq<nat>, b: seq<nat>, i: nat)
    requires StablyOrdered(keys, a) && StablyOrdered(keys, b)
    requires i <= |a| && a[..i] == b[..i]
    ensures a == b
    decreases |a| - i
  {
    if i < |a| {
      StepAgree(keys, a, b, i);
      assert a[..i + 1] == a[..i] + [a[i]];
      assert b[..i + 1] == b[..i] + [b[i]];
      AgreeFrom(keys, a, b, i + 1);
    } else {
      assert a == a[..i] && b == b[..i];
    }
  }

  /** There is exactly one stable order: StableSortIndices computes what Python's sort computes. */
  lemma StableOrderUnique(keys: seq<int>, a: seq<nat>, b: seq<nat>)
    requires StablyOrdered(keys, a) && StablyOrdered(keys, b)
    ensures a == b
  {
    AgreeFrom(keys, a, b, 0);
  }

  // ---------------------------------------------------------------- _sort_hsvs

  /** (h, s, v) ordering of Python tuples. */
  predicate LexLess(x: Triple, y: Triple)
  {
    x.c0 < y.c0 || (x.c0 == y.c0 && (x.c1 < y.c1 || (x.c1 == y.c1 && x.c2 < y.c2)))
  }

  function HsvKey(t: Triple): int { t.c0 * 65536 + t.c1 * 256 + t.c2 }

  lemma HsvKeyOrder(x: Triple, y: Triple)
    ensures HsvKey(x) < HsvKey(y) <==> LexLess(x, y)
    ensures HsvKey(x) == HsvKey(y) <==> x == y
  {
  }

  /**
   * `_sort_hsvs`: the indices of hsvs, ordered by (h, s, v); equal triples keep their
   * index order because Python's sort is stable.
   */
  method SortHsvs(hsvs: seq<Triple>) returns (order: seq<nat>)
    ensures |order| == |hsvs|
    ensures forall i :: 0 <= i < |order| ==> order[i] < |hsvs|
    ensures forall x: nat :: x < |hsvs| ==> x in order
    ensures forall i, j :: 0 <= i < j < |order| ==>
      order[i] != order[j] &&
      (LexLess(hsvs[order[i]], hsvs[order[j]]) ||
       (hsvs[order[i]] == hsvs[order[j]] && order[i] < order[j]))
  {
    var keys: seq<int> := [];
    for index := 0 to |hsvs|
      invariant |keys| == index
      invariant forall x :: 0 <= x < index ==> keys[x] == HsvKey(hsvs[x])
    {
      keys := keys + [HsvKey(hsvs[index])];
    }
    order := StableSortIndices(keys);
    forall i, j | 0 <= i < j < |order|
      ensures order[i] != order[j] &&
        (LexLess(hsvs[order[i]], hsvs[order[j]]) ||
         (hsvs[order[i]] == hsvs[order[j]] && order[i] < order[j]))
    {
      StablyOrderedDistinct(keys, order, i, j);
      HsvKeyOrder(hsvs[order[i]], hsvs[order[j]]);
    }
  }

  // ---------------------------------------------------------------- _make_bar

  /** What `_make_bar` returns besides the bar image: the RGB colour and the clamped HSV. */
  datatype Swatch = Swatch(rgb: Triple, hsv: Triple)

  /**
   * `_make_bar`: convert a BGR colour to HSV, raise the value channel to at least 150,
   * convert back to RGB.  The two cv2 conversions are parameters.
   */
  function MakeBar(bgr: Triple, bgrToHsv: Triple -> Triple, hsvToRgb: Triple -> Triple): (r: Swatch)
    ensures r.hsv.c0 == bgrToHsv(bgr).c0 && r.hsv.c1 == bgrToHsv(bgr).c1
    ensures r.hsv.c2 >= 150
    ensures bgrToHsv(bgr).c2 >= 150 ==> r.hsv.c2 == bgrToHsv(bgr).c2
    ensures bgrToHsv(bgr).c2 < 150 ==> r.hsv.c2 == 150
    ensures r.rgb == hsvToRgb(r.hsv)
  {
    var hsv := bgrToHsv(bgr);
    var v := if hsv.c2 <= 150 then 150 else hsv.c2;
    var clamped := Triple(hsv.c0, hsv.c1, v);
    Swatch(hsvToRgb(clamped), clamped)
  }

  // ---------------------------------------------------------------- _make_histogram

  /** How many labels fall in [lo, hi). */
  function CountIn(labels: seq<nat>, lo: int, hi: int): nat
  {
    if |labels| == 0 then 0
    else CountIn(labels[1..], lo, hi) + (if lo <= labels[0] < hi then 1 else 0)
  }

  function Distinct(labels: seq<nat>): set<nat> { set l | l in labels }

  /**
   * `np.histogram(labels, bins=arange(0, k + 1))` with k the number of distinct labels:
   * bins [0,1), [1,2), ..., and a last bin [k-1, k] closed on the right, as numpy has it.
   * These are the counts before the floating-point normalisation.
   */
  function Histogram(labels: seq<nat>): (h: seq<nat>)
    ensures |h| == |Distinct(labels)|
  {
    var k := |Distinct(labels)|;
    seq(k, j requires 0 <= j < k => if j < k - 1 then CountIn(labels, j, j + 1) else CountIn(labels, k - 1, k + 1))
  }

  function Sum(xs: seq<nat>): nat
  {
    if |xs| == 0 then 0 else Sum(xs[..|xs| - 1]) + xs[|xs| - 1]
  }

  lemma {:induction false} CountSplit(labels: seq<nat>, a: int, b: int, c: int)
    requires a <= b <= c
    ensures CountIn(labels, a, b) + CountIn(labels, b, c) == CountIn(labels, a, c)
  {
    if |labels| > 0 { CountSplit(labels[1..], a, b, c); }
  }

  lemma {:induction false} CountAll(labels: seq<nat>, hi: int)
    requires forall l :: l in labels ==> l < hi
    ensures CountIn(labels, 0, hi) == |labels|
  {
    if |labels| > 0 {
      assert labels[0] in labels;
      assert forall l :: l in labels[1..] ==> l in labels;
      CountAll(labels[1..], hi);
    }
  }

  lemma {:induction false} UnitBinsSum(labels: seq<nat>, h: seq<nat>, m: nat)
    requires m <= |h|
    requires forall j :: 0 <= j < m ==> h[j] == CountIn(labels, j, j + 1)
    ensures Sum(h[..m]) == CountIn(labels, 0, m)
  {
    if m > 0 {
      assert h[..m][..m - 1] == h[..m - 1];
      UnitBinsSum(labels, h, m - 1);
      CountSplit(labels, 0, m - 1, m);
    } else {
      assert CountIn(labels, 0, 0) == 0 by { CountSplit(labels, 0, 0, 0); }
    }
  }

  /**
   * The histogram has one bin per distinct label, and when no label exceeds the number of
   * distinct labels (as with KMeans labels 0 and 1 for two clusters) its counts add up to
   * the number of pixels.
   */
  lemma HistogramCountsPixels(labels: seq<nat>)
    requires forall l :: l in labels ==> l <= |Distinct(labels)|
    ensures Sum(Histogram(labels)) == |labels|
  {
    var h := Histogram(labels);
    var k := |h|;
    if |labels| > 0 { assert labels[0] in Distinct(labels); }
    if k > 0 {
      UnitBinsSum(labels, h, k - 1);
      assert h[..k] == h;
      CountSplit(labels, 0, k - 1, k + 1);
      CountAll(labels, k + 1);
    }
  }

  /** With two clusters every label is 0 or 1, so the bins count every pixel. */
  lemma TwoClusterHistogram(labels: seq<nat>)
    requires |labels| > 0
    requires forall l :: l in labels ==> l < 2
    ensures Sum(Histogram(labels)) == |labels|
    ensures 1 <= |Histogram(labels)| <= 2
  {
    assert labels[0] in Distinct(labels);
    assert Distinct(labels) <= {0, 1};
    assert |{0, 1}| == 2;
    SubsetSize(Distinct(labels), {0, 1});
    HistogramCountsPixels(labels);
  }

  lemma SubsetSize(a: set<nat>, b: set<nat>)
    requires a <= b
    ensures |a| <= |b|
  {
    assert b == a + (b - a);
  }

  // ---------------------------------------------------------------- get_dominant_color

  /** order ranks the clusters by share, largest first, ties in cluster order (stable reverse sort). */
  predicate RankedByShare(counts: seq<nat>, order: seq<nat>)
  {
    && |order| == |counts|
    && (forall i :: 0 <= i < |order| ==> order[i] < |counts|)
    && (forall x: nat :: x < |counts| ==> x in order)
    && (forall i, j :: 0 <= i < j < |order| ==>
          counts[order[i]] > counts[order[j]] ||
          (counts[order[i]] == counts[order[j]] && order[i] < order[j]))
  }

  /**
   * `get_dominant_color` once KMeans has given the pixel labels and the cluster centres:
   * pair the histogram with the centres (zip stops at the shorter), sort the pairs by
   * share, descending, and give one hex colour per pair.
   */
  method GetDominantColor(labels: seq<nat>, centers: seq<Triple>,
                          bgrToHsv: Triple -> Triple, hsvToRgb: Triple -> Triple)
    returns (hexs: seq<string>)
    ensures |hexs| == if |Histogram(labels)| < |centers| then |Histogram(labels)| else |centers|
    ensures forall i :: 0 <= i < |hexs| ==> IsHexColor(hexs[i])
    ensures exists order :: (RankedByShare(Histogram(labels)[..|hexs|], order) &&
      forall i :: 0 <= i < |hexs| ==>
        hexs[i] == HexTriplet(Channels(MakeBar(centers[order[i]], bgrToHsv, hsvToRgb).rgb)))
  {
    var histogram := Histogram(labels);
    var n := if |histogram| < |centers| then |histogram| else |centers|;
    var combined := histogram[..n];
    var keys: seq<int> := seq(n, i requires 0 <= i < n => -(combined[i] as int));
    var order := StableSortIndices(keys);
    hexs := [];
    for index := 0 to n
      invariant |hexs| == index
      invariant forall i :: 0 <= i < index ==>
        hexs[i] == HexTriplet(Channels(MakeBar(centers[order[i]], bgrToHsv, hsvToRgb).rgb))
    {
      var swatch := MakeBar(centers[order[index]], bgrToHsv, hsvToRgb);
      hexs := hexs + [HexTriplet(Channels(swatch.rgb))];
    }
    forall i | 0 <= i < n ensures IsHexColor(hexs[i]) {
      HexTripletIsColor(MakeBar(centers[order[i]], bgrToHsv, hsvToRgb).rgb);
    }
    assert RankedByShare(combined, order) by {
      forall i, j | 0 <= i < j < n
        ensures combined[order[i]] > combined[order[j]] ||
          (combined[order[i]] == combined[order[j]] && order[i] < order[j])
      {
        assert Before(keys, order[i], order[j]);
      }
    }
  }
}
