/**
 * Map: the layer-extent fold, the de-duplication of the layers' resolutions in log2 space,
 * the zoom bounds derived from them, and the navigator defaults set when the layers change.
 */
module Maps {
  import opened Wrappers
  import opened Numerics
  import opened Points
  import opened Rects

  /** What the map reads from a layer: whether it is enabled, its extent and its resolutions. */
  datatype Layer = Layer(enabled: bool, extent: Option<MRect>, resolutions: Option<seq<real>>)

  /** The two arguments given to `new MMinMax(…)`, in the order given. */
  datatype MMinMax = MMinMax(value1: real, value2: real)

  /** A resolution kept by `DetermineResolutions`, keyed by its log2. */
  datatype ResolutionEntry = ResolutionEntry(normalized: real, resolution: real)

  /** `normalizedDistanceThreshold`: two resolutions closer than this in log2 are redundant. */
  const NormalizedDistanceThreshold: real := 0.75

  // ---------------------------------------------------------------- Extent

  /** The `Extent` fold: null for no layers; the first extent, then `Join` with each next one. */
  function ExtentOf(layers: seq<Layer>): (e: Option<MRect>)
    ensures e.None? <==> forall i :: 0 <= i < |layers| ==> layers[i].extent.None?
    decreases |layers|
  {
    if layers == [] then None
    else
      var init := layers[..|layers| - 1];
      assert forall i :: 0 <= i < |init| ==> init[i] == layers[i];
      var e := ExtentOf(init);
      if e.None? then layers[|layers| - 1].extent else Some(Join(e.value, layers[|layers| - 1].extent))
  }

  /** The non-null layer extents, in layer order. */
  function Extents(layers: seq<Layer>): seq<MRect>
    decreases |layers|
  {
    if layers == [] then []
    else
      var last := layers[|layers| - 1];
      Extents(layers[..|layers| - 1]) + (if last.extent.Some? then [last.extent.value] else [])
  }

  lemma {:induction false} ExtentsAreLayerExtents(layers: seq<Layer>)
    ensures forall i :: 0 <= i < |layers| && layers[i].extent.Some? ==> layers[i].extent.value in Extents(layers)
    ensures forall r :: r in Extents(layers) ==> exists i :: 0 <= i < |layers| && layers[i].extent == Some(r)
    decreases |layers|
  {
    if layers != [] {
      var init := layers[..|layers| - 1];
      assert forall i :: 0 <= i < |init| ==> init[i] == layers[i];
      ExtentsAreLayerExtents(init);
    }
  }

  /** Every extent a layer reports is a constructed, hence normalised, rectangle. */
  predicate ExtentsNormalized(layers: seq<Layer>)
  {
    forall i :: 0 <= i < |layers| && layers[i].extent.Some? ==> Normalized(layers[i].extent.value)
  }

  lemma JoinOfNormalizedIsHull(a: MRect, b: MRect)
    requires Normalized(a) && Normalized(b)
    ensures Join(a, Some(b)) == Hull(a, b)
  {
  }

  /** The map's extent is the bounding box of the non-null layer extents, null if there are none. */
  lemma {:induction false} ExtentIsBoundsOfLayerExtents(layers: seq<Layer>)
    requires ExtentsNormalized(layers)
    ensures Extents(layers) == [] ==> ExtentOf(layers) == None
    ensures Extents(layers) != [] ==> ExtentOf(layers) == Some(Bounds(Extents(layers)))
    decreases |layers|
  {
    if layers != [] {
      var init := layers[..|layers| - 1];
      assert forall i :: 0 <= i < |init| ==> init[i] == layers[i];
      var last := layers[|layers| - 1];
      assert ExtentsNormalized(init);
      ExtentIsBoundsOfLayerExtents(init);
      var es := Extents(init);
      assert Extents(layers) == es + (if last.extent.Some? then [last.extent.value] else []);
      if es == [] {
        assert ExtentOf(layers) == last.extent;
      } else {
        var b := Bounds(es);
        assert ExtentOf(init) == Some(b);
        assert Normalized(b) by {
          ExtentsAreLayerExtents(init);
          assert es[0] in es;
        }
        if last.extent.Some? {
          var all := es + [last.extent.value];
          assert all[..|all| - 1] == es;
          JoinOfNormalizedIsHull(b, last.extent.value);
          assert Bounds(all) == Hull(b, last.extent.value);
        } else {
          assert ExtentOf(layers) == Some(Join(b, None));
          assert Extents(layers) == es + [] == es;
        }
      }
    }
  }

  /** The extent contains every non-null layer extent. */
  lemma ExtentContainsLayerExtents(layers: seq<Layer>)
    requires ExtentsNormalized(layers)
    ensures forall i :: 0 <= i < |layers| && layers[i].extent.Some? ==>
              ContainsRect(ExtentOf(layers).value, layers[i].extent.value)
  {
    ExtentIsBoundsOfLayerExtents(layers);
    ExtentsAreLayerExtents(layers);
    forall i | 0 <= i < |layers| && layers[i].extent.Some?
      ensures ContainsRect(ExtentOf(layers).value, layers[i].extent.value)
    {
      var es := Extents(layers);
      var k :| 0 <= k < |es| && es[k] == layers[i].extent.value;
    }
  }

  // ---------------------------------------------------------------- Resolutions

  /** The resolutions `DetermineResolutions` looks at from one layer. */
  function Eligible(layer: Layer): seq<real>
  {
    if !layer.enabled || layer.resolutions.None? then [] else layer.resolutions.value
  }

  /** The resolutions of all layers in visiting order, skipping disabled and resolution-less layers. */
  function Candidates(layers: seq<Layer>): seq<real>
    decreases |layers|
  {
    if layers == [] then [] else Candidates(layers[..|layers| - 1]) + Eligible(layers[|layers| - 1])
  }

  lemma {:induction false} CandidatesAppend(a: seq<Layer>, b: seq<Layer>)
    ensures Candidates(a + b) == Candidates(a) + Candidates(b)
    decreases |b|
  {
    if b != [] {
      var init := b[..|b| - 1];
      assert (a + b)[..|a + b| - 1] == a + init;
      assert (a + b)[|a + b| - 1] == b[|b| - 1];
      CandidatesAppend(a, init);
      assert Candidates(a + b) == Candidates(a + init) + Eligible(b[|b| - 1]);
      assert Candidates(b) == Candidates(init) + Eligible(b[|b| - 1]);
    } else {
      assert a + b == a;
    }
  }

  lemma CandidatesStep(layers: seq<Layer>, i: int)
    requires 0 <= i < |layers|
    ensures Candidates(layers[..i + 1]) == Candidates(layers[..i]) + Eligible(layers[i])
  {
    assert layers[..i + 1][..i] == layers[..i];
  }

  /** Disabled layers and layers without resolutions contribute nothing. */
  lemma IgnoredLayerContributesNothing(before: seq<Layer>, layer: Layer, after: seq<Layer>)
    requires !layer.enabled || layer.resolutions.None?
    ensures Candidates(before + [layer] + after) == Candidates(before + after)
  {
    var single := [layer];
    assert single[..0] == [];
    assert Candidates(single) == [];
    CandidatesAppend(before, single);
    assert Candidates(before + single) == Candidates(before) + [];
    assert Candidates(before) + [] == Candidates(before);
    CandidatesAppend(before + single, after);
    CandidatesAppend(before, after);
  }

  /** `items.Keys`. */
  function Keys(items: seq<ResolutionEntry>): seq<real>
  {
    seq(|items|, i requires 0 <= i < |items| => items[i].normalized)
  }

  /** `items.Select(i => i.Value)`. */
  function Values(items: seq<ResolutionEntry>): seq<real>
  {
    seq(|items|, i requires 0 <= i < |items| => items[i].resolution)
  }

  /** `items.Keys.Min(k => Math.Abs(k - normalized))`. */
  function MinDistance(keys: seq<real>, x: real): (d: real)
    requires |keys| > 0
    ensures forall i :: 0 <= i < |keys| ==> d <= Abs(keys[i] - x)
    ensures exists i :: 0 <= i < |keys| && d == Abs(keys[i] - x)
  {
    if |keys| == 1 then Abs(keys[0] - x)
    else
      var rest := MinDistance(keys[1..], x);
      assert forall i :: 1 <= i < |keys| ==> keys[1..][i - 1] == keys[i];
      Min(Abs(keys[0] - x), rest)
  }

  /** True when `x` adds value next to the kept entries: there are none, or all are far enough. */
  predicate AddsValue(items: seq<ResolutionEntry>, x: real)
  {
    items == [] || MinDistance(Keys(items), x) > NormalizedDistanceThreshold
  }

  /** The dictionary `DetermineResolutions` fills, in insertion order, for candidates `rs`. */
  function Kept(log2: real -> real, rs: seq<real>): (k: seq<ResolutionEntry>)
    ensures |rs| > 0 ==> |k| > 0
    ensures forall i :: 0 <= i < |k| ==> k[i].normalized == log2(k[i].resolution)
    decreases |rs|
  {
    if rs == [] then []
    else
      var init := rs[..|rs| - 1];
      var x := rs[|rs| - 1];
      var k := Kept(log2, init);
      if AddsValue(k, log2(x)) then k + [ResolutionEntry(log2(x), x)] else k
  }

  /** `x` is more than the threshold away from every entry's key (vacuous when there are none). */
  predicate FarFromAll(items: seq<ResolutionEntry>, x: real)
  {
    forall j :: 0 <= j < |items| ==> Abs(items[j].normalized - x) > NormalizedDistanceThreshold
  }

  /** The `MinDistance` test is a test against every kept entry. */
  lemma AddsValueIff(items: seq<ResolutionEntry>, x: real)
    ensures AddsValue(items, x) <==> FarFromAll(items, x)
  {
    if items != [] {
      var ks := Keys(items);
      assert forall i :: 0 <= i < |items| ==> ks[i] == items[i].normalized;
      var d := MinDistance(ks, x);
      var m :| 0 <= m < |ks| && d == Abs(ks[m] - x);
      assert ks[m] == items[m].normalized;
    }
  }

  /** A candidate is kept iff it is the first one, or its log2 is more than 0.75 from every kept one. */
  lemma KeptStep(log2: real -> real, rs: seq<real>, x: real)
    ensures FarFromAll(Kept(log2, rs), log2(x)) ==>
              Kept(log2, rs + [x]) == Kept(log2, rs) + [ResolutionEntry(log2(x), x)]
    ensures !FarFromAll(Kept(log2, rs), log2(x)) ==> Kept(log2, rs + [x]) == Kept(log2, rs)
  {
    var all := rs + [x];
    assert all[..|all| - 1] == rs && all[|all| - 1] == x;
    AddsValueIff(Kept(log2, rs), log2(x));
  }

  lemma KeptAppendStep(log2: real -> real, before: seq<real>, rs: seq<real>, j: int)
    requires 0 <= j < |rs|
    ensures var k := Kept(log2, before + rs[..j]);
            Kept(log2, before + rs[..j + 1]) ==
              if AddsValue(k, log2(rs[j])) then k + [ResolutionEntry(log2(rs[j]), rs[j])] else k
  {
    var all := before + rs[..j + 1];
    assert all[..|all| - 1] == before + rs[..j] && all[|all| - 1] == rs[j];
  }

  /** The first candidate is always kept. */
  lemma {:induction false} KeptKeepsFirst(log2: real -> real, rs: seq<real>)
    requires |rs| > 0
    ensures Kept(log2, rs)[0] == ResolutionEntry(log2(rs[0]), rs[0])
    decreases |rs|
  {
    if |rs| > 1 {
      var init := rs[..|rs| - 1];
      KeptKeepsFirst(log2, init);
    }
  }

  lemma AbsDifferenceIsSymmetric(a: real, b: real)
    ensures Abs(a - b) == Abs(b - a)
  {
  }

  /** The entries' keys are pairwise more than the threshold apart. */
  predicate KeysSpread(items: seq<ResolutionEntry>)
  {
    forall i, j :: 0 <= i < |items| && 0 <= j < |items| && i != j ==>
      Abs(items[i].normalized - items[j].normalized) > NormalizedDistanceThreshold
  }

  /** Some entry's key is within the threshold of `x`. */
  predicate Covered(items: seq<ResolutionEntry>, x: real)
  {
    exists j :: 0 <= j < |items| && Abs(items[j].normalized - x) <= NormalizedDistanceThreshold
  }

  /** Appending an entry far from all others keeps the keys spread. */
  lemma AppendFarKeepsSpread(k0: seq<ResolutionEntry>, e: ResolutionEntry)
    requires KeysSpread(k0) && FarFromAll(k0, e.normalized)
    ensures KeysSpread(k0 + [e])
  {
    var k := k0 + [e];
    forall i, j | 0 <= i < |k| && 0 <= j < |k| && i != j
      ensures Abs(k[i].normalized - k[j].normalized) > NormalizedDistanceThreshold
    {
      if i == |k0| {
        assert k[j] == k0[j];
        AbsDifferenceIsSymmetric(k0[j].normalized, e.normalized);
      } else if j == |k0| {
        assert k[i] == k0[i];
      } else {
        assert k[i] == k0[i] && k[j] == k0[j];
      }
    }
  }

  /** The kept resolutions are pairwise more than 0.75 apart in log2. */
  lemma {:induction false} KeptIsSpread(log2: real -> real, rs: seq<real>)
    ensures KeysSpread(Kept(log2, rs))
    decreases |rs|
  {
    if rs != [] {
      var init := rs[..|rs| - 1];
      var x := rs[|rs| - 1];
      assert rs == init + [x];
      KeptIsSpread(log2, init);
      KeptStep(log2, init, x);
      if FarFromAll(Kept(log2, init), log2(x)) {
        AppendFarKeepsSpread(Kept(log2, init), ResolutionEntry(log2(x), x));
      }
    }
  }

  lemma CoveredAfterAppend(log2: real -> real, k0: seq<ResolutionEntry>, e: ResolutionEntry, init: seq<real>, x: real)
    requires forall i :: 0 <= i < |init| ==> Covered(k0, log2(init[i]))
    requires e.normalized == log2(x)
    ensures forall i :: 0 <= i < |init + [x]| ==> Covered(k0 + [e], log2((init + [x])[i]))
  {
    var k := k0 + [e];
    forall i | 0 <= i < |init + [x]|
      ensures Covered(k, log2((init + [x])[i]))
    {
      if i < |init| {
        var j :| 0 <= j < |k0| && Abs(k0[j].normalized - log2(init[i])) <= NormalizedDistanceThreshold;
        assert k[j] == k0[j];
      } else {
        assert k[|k0|] == e;
      }
    }
  }

  lemma CoveredAfterSkip(log2: real -> real, k0: seq<ResolutionEntry>, init: seq<real>, x: real)
    requires forall i :: 0 <= i < |init| ==> Covered(k0, log2(init[i]))
    requires !FarFromAll(k0, log2(x))
    ensures forall i :: 0 <= i < |init + [x]| ==> Covered(k0, log2((init + [x])[i]))
  {
    forall i | 0 <= i < |init + [x]|
      ensures Covered(k0, log2((init + [x])[i]))
    {
      if i < |init| {
        assert (init + [x])[i] == init[i];
      }
    }
  }

  lemma KeptCoversStep(log2: real -> real, init: seq<real>, x: real)
    requires forall i :: 0 <= i < |init| ==> Covered(Kept(log2, init), log2(init[i]))
    ensures forall i :: 0 <= i < |init + [x]| ==> Covered(Kept(log2, init + [x]), log2((init + [x])[i]))
  {
    KeptStep(log2, init, x);
    if FarFromAll(Kept(log2, init), log2(x)) {
      CoveredAfterAppend(log2, Kept(log2, init), ResolutionEntry(log2(x), x), init, x);
    } else {
      CoveredAfterSkip(log2, Kept(log2, init), init, x);
    }
  }

  /** Every candidate lies within 0.75 in log2 of some kept resolution: nothing useful is dropped. */
  lemma {:induction false} KeptCoversCandidates(log2: real -> real, rs: seq<real>)
    ensures forall i :: 0 <= i < |rs| ==> Covered(Kept(log2, rs), log2(rs[i]))
    decreases |rs|
  {
    if rs != [] {
      var init := rs[..|rs| - 1];
      var x := rs[|rs| - 1];
      assert rs == init + [x];
      KeptCoversCandidates(log2, init);
      KeptCoversStep(log2, init, x);
    }
  }

  // ---------------------------------------------------------------- Ordering

  predicate SortedDescending(s: seq<real>)
  {
    forall i, j :: 0 <= i < j < |s| ==> s[i] >= s[j]
  }

  /** One step of the descending order: `x` goes before the first element not larger than it. */
  function Insert(x: real, s: seq<real>): (r: seq<real>)
    ensures multiset(r) == multiset(s) + multiset{x}
    ensures |r| == |s| + 1
  {
    if s == [] then [x]
    else if x >= s[0] then [x] + s
    else
      assert s == [s[0]] + s[1..];
      [s[0]] + Insert(x, s[1..])
  }

  lemma {:induction false} InsertKeepsSorted(x: real, s: seq<real>)
    requires SortedDescending(s)
    ensures SortedDescending(Insert(x, s))
    ensures Insert(x, s)[0] == x || (s != [] && Insert(x, s)[0] == s[0])
    decreases |s|
  {
    if s == [] {
    } else if x >= s[0] {
      ConsKeepsSorted(x, s);
    } else {
      var tail := s[1..];
      assert SortedDescending(tail) by {
        assert forall i :: 0 <= i < |tail| ==> tail[i] == s[i + 1];
      }
      InsertKeepsSorted(x, tail);
      var t := Insert(x, tail);
      assert t[0] <= s[0] by {
        if tail != [] { assert tail[0] == s[1]; }
      }
      ConsKeepsSorted(s[0], t);
      assert Insert(x, s) == [s[0]] + t;
    }
  }

  /** A head no smaller than the first element of a descending sequence keeps it descending. */
  lemma ConsKeepsSorted(h: real, t: seq<real>)
    requires SortedDescending(t) && (t != [] ==> t[0] <= h)
    ensures SortedDescending([h] + t)
  {
    var r := [h] + t;
    forall i, j | 0 <= i < j < |r|
      ensures r[i] >= r[j]
    {
      if i == 0 {
        assert r[j] == t[j - 1] <= t[0];
      } else {
        assert r[i] == t[i - 1] && r[j] == t[j - 1];
      }
    }
  }

  /** `OrderByDescending(r => r)`: a descending permutation of the input. */
  function SortDescending(s: seq<real>): (r: seq<real>)
    ensures SortedDescending(r)
    ensures multiset(r) == multiset(s)
    ensures |r| == |s|
  {
    if s == [] then []
    else
      assert s == [s[0]] + s[1..];
      var t := SortDescending(s[1..]);
      InsertKeepsSorted(s[0], t);
      Insert(s[0], t)
  }

  /** Values whose log2 are pairwise more than 0.75 apart. */
  predicate Spread(log2: real -> real, s: seq<real>)
  {
    forall i, j :: 0 <= i < |s| && 0 <= j < |s| && i != j ==>
      Abs(log2(s[i]) - log2(s[j])) > NormalizedDistanceThreshold
  }

  /** `x`'s log2 is more than the threshold away from that of every element of `s`. */
  predicate FarFromEach(log2: real -> real, x: real, s: seq<real>)
  {
    forall k :: 0 <= k < |s| ==> Abs(log2(x) - log2(s[k])) > NormalizedDistanceThreshold
  }

  lemma ConsKeepsSpread(log2: real -> real, y: real, t: seq<real>)
    requires Spread(log2, t) && FarFromEach(log2, y, t)
    ensures Spread(log2, [y] + t)
  {
    var r := [y] + t;
    forall i, j | 0 <= i < |r| && 0 <= j < |r| && i != j
      ensures Abs(log2(r[i]) - log2(r[j])) > NormalizedDistanceThreshold
    {
      if i == 0 {
        assert r[j] == t[j - 1];
      } else if j == 0 {
        assert r[i] == t[i - 1];
        AbsDifferenceIsSymmetric(log2(y), log2(t[i - 1]));
      } else {
        assert r[i] == t[i - 1] && r[j] == t[j - 1];
      }
    }
  }

  /** Far from each element of `s` is far from each element of any permutation of `s`. */
  lemma FarFromEachPermutation(log2: real -> real, y: real, s: seq<real>, t: seq<real>)
    requires multiset(t) <= multiset(s) && FarFromEach(log2, y, s)
    ensures FarFromEach(log2, y, t)
  {
    forall k | 0 <= k < |t|
      ensures Abs(log2(y) - log2(t[k])) > NormalizedDistanceThreshold
    {
      assert t[k] in multiset(s);
      var m :| 0 <= m < |s| && s[m] == t[k];
    }
  }

  lemma {:induction false} InsertKeepsSpread(log2: real -> real, x: real, s: seq<real>)
    requires Spread(log2, s) && FarFromEach(log2, x, s)
    ensures Spread(log2, Insert(x, s))
    decreases |s|
  {
    if s == [] {
    } else if x >= s[0] {
      ConsKeepsSpread(log2, x, s);
    } else {
      var tail := s[1..];
      assert forall i :: 0 <= i < |tail| ==> tail[i] == s[i + 1];
      assert Spread(log2, tail);
      InsertKeepsSpread(log2, x, tail);
      var t := Insert(x, tail);
      assert FarFromEach(log2, s[0], tail + [x]) by {
        forall k | 0 <= k < |tail + [x]|
          ensures Abs(log2(s[0]) - log2((tail + [x])[k])) > NormalizedDistanceThreshold
        {
          if k == |tail| {
            AbsDifferenceIsSymmetric(log2(x), log2(s[0]));
          } else {
            assert (tail + [x])[k] == s[k + 1];
          }
        }
      }
      FarFromEachPermutation(log2, s[0], tail + [x], t);
      ConsKeepsSpread(log2, s[0], t);
    }
  }

  lemma {:induction false} SortKeepsSpread(log2: real -> real, s: seq<real>)
    requires Spread(log2, s)
    ensures Spread(log2, SortDescending(s))
    decreases |s|
  {
    if s != [] {
      var tail := s[1..];
      assert forall i :: 0 <= i < |tail| ==> tail[i] == s[i + 1];
      assert Spread(log2, tail);
      SortKeepsSpread(log2, tail);
      var t := SortDescending(tail);
      assert FarFromEach(log2, s[0], tail);
      FarFromEachPermutation(log2, s[0], tail, t);
      InsertKeepsSpread(log2, s[0], t);
    }
  }

  /** The first element of the descending order is the largest input, the last the smallest. */
  lemma SortedExtremes(s: seq<real>)
    requires s != []
    ensures SortDescending(s)[0] in s
    ensures SortDescending(s)[|s| - 1] in s
    ensures forall x :: x in s ==> SortDescending(s)[|s| - 1] <= x <= SortDescending(s)[0]
  {
    ExtremesOfSorted(SortDescending(s), s);
  }

  /** A descending permutation of `s` starts with its largest element and ends with its smallest. */
  lemma ExtremesOfSorted(t: seq<real>, s: seq<real>)
    requires s != [] && |t| == |s| && SortedDescending(t) && multiset(t) == multiset(s)
    ensures t[0] in s && t[|s| - 1] in s
    ensures forall x :: x in s ==> t[|s| - 1] <= x <= t[0]
  {
    assert t[0] in multiset(s);
    assert t[|t| - 1] in multiset(s);
    forall x | x in s
      ensures t[|t| - 1] <= x <= t[0]
    {
      assert x in multiset(t);
      var k :| 0 <= k < |t| && t[k] == x;
    }
  }

  /** The result of `DetermineResolutions` for the given layers. */
  function ResolutionsOf(log2: real -> real, layers: seq<Layer>): seq<real>
  {
    SortDescending(Values(Kept(log2, Candidates(layers))))
  }

  /** Every kept resolution is one of the candidates. */
  lemma {:induction false} KeptFromCandidates(log2: real -> real, rs: seq<real>)
    ensures forall i :: 0 <= i < |Kept(log2, rs)| ==> Kept(log2, rs)[i].resolution in rs
    decreases |rs|
  {
    if rs != [] {
      var init := rs[..|rs| - 1];
      var x := rs[|rs| - 1];
      assert rs == init + [x];
      KeptFromCandidates(log2, init);
      KeptStep(log2, init, x);
      var k0 := Kept(log2, init);
      var k := Kept(log2, rs);
      forall i | 0 <= i < |k|
        ensures k[i].resolution in rs
      {
        if i < |k0| {
          assert k[i] == k0[i];
        }
      }
    }
  }

  lemma ValuesAreSpread(log2: real -> real, k: seq<ResolutionEntry>)
    requires KeysSpread(k)
    requires forall i :: 0 <= i < |k| ==> k[i].normalized == log2(k[i].resolution)
    ensures Spread(log2, Values(k))
  {
    var vs := Values(k);
    forall i, j | 0 <= i < |vs| && 0 <= j < |vs| && i != j
      ensures Abs(log2(vs[i]) - log2(vs[j])) > NormalizedDistanceThreshold
    {
      assert log2(vs[i]) == k[i].normalized && log2(vs[j]) == k[j].normalized;
    }
  }

  lemma ResolutionsAreCandidates(log2: real -> real, layers: seq<Layer>)
    ensures forall i :: 0 <= i < |ResolutionsOf(log2, layers)| ==> ResolutionsOf(log2, layers)[i] in Candidates(layers)
  {
    var rs := Candidates(layers);
    var vs := Values(Kept(log2, rs));
    var out := ResolutionsOf(log2, layers);
    KeptFromCandidates(log2, rs);
    forall i | 0 <= i < |out|
      ensures out[i] in rs
    {
      assert out[i] in multiset(vs);
      var m :| 0 <= m < |vs| && vs[m] == out[i];
    }
  }

  /** An entry within the threshold of `c` reappears, by value, in any permutation `out` of the values. */
  lemma CoveringIndex(log2: real -> real, k: seq<ResolutionEntry>, out: seq<real>, c: real) returns (i: int)
    requires forall j :: 0 <= j < |k| ==> k[j].normalized == log2(k[j].resolution)
    requires multiset(out) == multiset(Values(k))
    requires Covered(k, log2(c))
    ensures 0 <= i < |out| && Abs(log2(out[i]) - log2(c)) <= NormalizedDistanceThreshold
  {
    var vs := Values(k);
    var j :| 0 <= j < |k| && Abs(k[j].normalized - log2(c)) <= NormalizedDistanceThreshold;
    assert vs[j] in multiset(out);
    i :| 0 <= i < |out| && out[i] == vs[j];
  }

  lemma ResolutionsCoverCandidates(log2: real -> real, layers: seq<Layer>)
    ensures forall c :: c in Candidates(layers) ==>
              exists i :: 0 <= i < |ResolutionsOf(log2, layers)| &&
                Abs(log2(ResolutionsOf(log2, layers)[i]) - log2(c)) <= NormalizedDistanceThreshold
  {
    var rs := Candidates(layers);
    var k := Kept(log2, rs);
    var vs := Values(k);
    var out := ResolutionsOf(log2, layers);
    KeptCoversCandidates(log2, rs);
    forall c | c in rs
      ensures exists i :: 0 <= i < |out| && Abs(log2(out[i]) - log2(c)) <= NormalizedDistanceThreshold
    {
      var n :| 0 <= n < |rs| && rs[n] == c;
      var i := CoveringIndex(log2, k, out, c);
    }
  }

  /**
   * The default resolutions are sorted descending, pairwise more than 0.75 apart in log2, each
   * is a resolution of an enabled layer, and every such resolution is within 0.75 of one of them.
   */
  lemma ResolutionsOfProperties(log2: real -> real, layers: seq<Layer>)
    ensures SortedDescending(ResolutionsOf(log2, layers))
    ensures Spread(log2, ResolutionsOf(log2, layers))
    ensures forall i :: 0 <= i < |ResolutionsOf(log2, layers)| ==> ResolutionsOf(log2, layers)[i] in Candidates(layers)
    ensures forall c :: c in Candidates(layers) ==>
              exists i :: 0 <= i < |ResolutionsOf(log2, layers)| &&
                Abs(log2(ResolutionsOf(log2, layers)[i]) - log2(c)) <= NormalizedDistanceThreshold
  {
    var k := Kept(log2, Candidates(layers));
    KeptIsSpread(log2, Candidates(layers));
    ValuesAreSpread(log2, k);
    SortKeepsSpread(log2, Values(k));
    ResolutionsAreCandidates(log2, layers);
    ResolutionsCoverCandidates(log2, layers);
  }

  /** `GetMinMaxResolution`: null for null or empty input, else (largest, half the smallest). */
  function GetMinMaxResolution(resolutions: Option<seq<real>>): (r: Option<MMinMax>)
    ensures r.None? <==> resolutions.None? || resolutions.value == []
    ensures r.Some? ==> r.value.value1 in resolutions.value
    ensures r.Some? ==> forall x :: x in resolutions.value ==> x <= r.value.value1
    ensures r.Some? ==> exists m :: m in resolutions.value && r.value.value2 == m * 0.5 &&
                                    (forall x :: x in resolutions.value ==> m <= x)
  {
    if resolutions.None? || resolutions.value == [] then None
    else
      var extremes := FirstAndLastSorted(resolutions.value);
      var mostZoomedOut := extremes.0;
      var mostZoomedIn := extremes.1 * 0.5;
      assert extremes.1 in resolutions.value && mostZoomedIn == extremes.1 * 0.5;
      Some(MMinMax(mostZoomedOut, mostZoomedIn))
  }

  /** The first and the last entry of `s` sorted descending: its largest and its smallest value. */
  function FirstAndLastSorted(s: seq<real>): (r: (real, real))
    requires s != []
    ensures r.0 in s && r.1 in s
    ensures forall x :: x in s ==> r.1 <= x <= r.0
  {
    var sorted := SortDescending(s);
    SortedExtremes(s);
    (sorted[0], sorted[|sorted| - 1])
  }

  /** The inner loop of `DetermineResolutions`: one layer's resolutions offered to `items` in turn. */
  method AddResolutions(log2: real -> real, items0: seq<ResolutionEntry>, before: seq<real>, layer: Layer)
    returns (items: seq<ResolutionEntry>)
    requires items0 == Kept(log2, before)
    ensures items == Kept(log2, before + Eligible(layer))
  {
    items := items0;
    if !layer.enabled || layer.resolutions.None? {
      assert before + [] == before;
      return;
    }
    var rs := layer.resolutions.value;
    for j := 0 to |rs|
      invariant items == Kept(log2, before + rs[..j])
    {
      var resolution := rs[j];
      var normalized := log2(resolution);
      KeptAppendStep(log2, before, rs, j);
      if |items| == 0 {
        items := items + [ResolutionEntry(normalized, resolution)];
      } else {
        var normalizedDistance := MinDistance(Keys(items), normalized);
        if normalizedDistance > NormalizedDistanceThreshold {
          items := items + [ResolutionEntry(normalized, resolution)];
        }
      }
    }
    assert rs[..|rs|] == rs;
  }

  // ---------------------------------------------------------------- Navigator and Map

  /** The three navigator defaults the map assigns; the navigator is otherwise not modelled. */
  class Navigator {
    var defaultResolutions: seq<real>
    var defaultZoomBounds: Option<MMinMax>
    var defaultPanBounds: Option<MRect>

    constructor (resolutions: seq<real>, zoomBounds: Option<MMinMax>, panBounds: Option<MRect>)
      ensures defaultResolutions == resolutions
      ensures defaultZoomBounds == zoomBounds && defaultPanBounds == panBounds
    {
      defaultResolutions := resolutions;
      defaultZoomBounds := zoomBounds;
      defaultPanBounds := panBounds;
    }
  }

  class Map {
    var layers: seq<Layer>
    const navigator: Navigator

    constructor (navigator: Navigator)
      ensures layers == [] && this.navigator == navigator
    {
      layers := [];
      this.navigator := navigator;
    }

    /** `Extent`: the fold over the layers, null when there are none. */
    method Extent() returns (extent: Option<MRect>)
      ensures extent == ExtentOf(layers)
    {
      if |layers| == 0 { return None; }
      extent := None;
      for i := 0 to |layers|
        invariant extent == ExtentOf(layers[..i])
      {
        var layer := layers[i];
        extent := if extent.None? then layer.extent else Some(Join(extent.value, layer.extent));
        assert layers[..i + 1][..i] == layers[..i];
      }
      assert layers[..|layers|] == layers;
    }

    /** `DetermineResolutions(Layers)`, with `Math.Log(x, 2)` given as `log2`. */
    method DetermineResolutions(log2: real -> real) returns (resolutions: seq<real>)
      ensures resolutions == ResolutionsOf(log2, layers)
    {
      var items: seq<ResolutionEntry> := [];
      for i := 0 to |layers|
        invariant items == Kept(log2, Candidates(layers[..i]))
      {
        CandidatesStep(layers, i);
        items := AddResolutions(log2, items, Candidates(layers[..i]), layers[i]);
      }
      assert layers[..|layers|] == layers;
      resolutions := SortDescending(Values(items));
    }

    /**
     * `LayersChanged`: new default resolutions, zoom bounds from the navigator's resolutions
     * (`resolutionsAfter` gives what the navigator reports once its default resolutions are set),
     * and a copy of the extent as pan bounds.
     */
    method LayersChanged(log2: real -> real, resolutionsAfter: seq<real> -> Option<seq<real>>)
      modifies navigator
      ensures navigator.defaultResolutions == ResolutionsOf(log2, layers)
      ensures navigator.defaultZoomBounds == GetMinMaxResolution(resolutionsAfter(ResolutionsOf(log2, layers)))
      ensures ExtentOf(layers).None? ==> navigator.defaultPanBounds == None
      ensures ExtentOf(layers).Some? ==> navigator.defaultPanBounds == Some(Rects.Copy(ExtentOf(layers).value))
    {
      var resolutions := DetermineResolutions(log2);
      navigator.defaultResolutions := resolutions;
      navigator.defaultZoomBounds := GetMinMaxResolution(resolutionsAfter(navigator.defaultResolutions));
      var extent := Extent();
      navigator.defaultPanBounds := if extent.None? then None else Some(Rects.Copy(extent.value));
    }

    /** A change of the layer collection: the new layers are stored and `LayersChanged` runs. */
    method LayersCollectionChanged(newLayers: seq<Layer>, log2: real -> real,
                                   resolutionsAfter: seq<real> -> Option<seq<real>>)
      modifies this, navigator
      ensures layers == newLayers
      ensures navigator.defaultResolutions == ResolutionsOf(log2, newLayers)
      ensures navigator.defaultZoomBounds == GetMinMaxResolution(resolutionsAfter(ResolutionsOf(log2, newLayers)))
      ensures ExtentOf(newLayers).None? ==> navigator.defaultPanBounds == None
      ensures ExtentOf(newLayers).Some? ==> navigator.defaultPanBounds == Some(Rects.Copy(ExtentOf(newLayers).value))
    {
      layers := newLayers;
      LayersChanged(log2, resolutionsAfter);
    }
  }

  /** The pan bounds set by `LayersChanged` contain every layer's extent. */
  lemma PanBoundsContainLayerExtents(layers: seq<Layer>)
    requires ExtentsNormalized(layers)
    ensures ExtentOf(layers).Some? ==>
              forall i :: 0 <= i < |layers| && layers[i].extent.Some? ==>
                ContainsRect(Rects.Copy(ExtentOf(layers).value), layers[i].extent.value)
  {
    ExtentContainsLayerExtents(layers);
    ExtentIsBoundsOfLayerExtents(layers);
  }
}
