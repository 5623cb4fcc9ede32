/**
 * The pyramid decoders of dilated_decoder.py as symbolic computations.
 *
 * Keras blocks (ConvBN, UpSampling2D, DarkRouteProcess, RouteMerge) are opaque:
 * a block is recorded by the arguments it is constructed with, and applying
 * it builds an expression tree over the backbone features. The level range,
 * the per-level module plan of every `build`, and the outputs of every `call`
 * are stated here as functions; the classes in DilatedDecoder are proved to
 * compute them.
 */
module DecoderPlan {
  import opened Wrappers
  import opened Arith

  /** The resolution change a RouteMerge is asked for (the FPN passes neither flag). */
  datatype Sampling = DefaultSampling | Upsample | Downsample

  /** An opaque Keras block, identified by its constructor arguments. */
  datatype Block =
    | ConvBN(filters: int)
    | UpSampling2D(size: int)
    | DarkRouteProcess(filters: int, repetitions: int, insertSpp: bool)
    | RouteMerge(filters: int, sampling: Sampling)

  /** A feature map, as the expression that computes it. */
  datatype Expr =
    | Feature(level: int)                 // a backbone feature map
    | Apply(block: Block, x: Expr)        // a single-output block
    | RouteOut(block: Block, x: Expr)     // first output of a DarkRouteProcess
    | MainOut(block: Block, x: Expr)      // second output of a DarkRouteProcess
    | Merge(block: Block, a: Expr, b: Expr)

  /** The backbone levels an expression reads. */
  function Leaves(e: Expr): set<int>
  {
    match e
    case Feature(l) => {l}
    case Apply(_, x) => Leaves(x)
    case RouteOut(_, x) => Leaves(x)
    case MainOut(_, x) => Leaves(x)
    case Merge(_, a, b) => Leaves(a) + Leaves(b)
  }

  /**
   * The channel count of a feature map when the blocks themselves fix it.
   * A ConvBN sets it, upsampling keeps it; the other blocks are opaque.
   */
  function OutChannels(e: Expr): Option<int>
  {
    match e
    case Apply(ConvBN(f), _) => Some(f)
    case Apply(UpSampling2D(_), x) => OutChannels(x)
    case _ => None
  }

  /** The levels `lo..hi`, as Python's `range(lo, hi + 1)` seen as a set. */
  function LevelSet(lo: int, hi: int): (s: set<int>)
    ensures forall l :: l in s <==> lo <= l <= hi
    decreases hi - lo
  {
    if lo > hi then {} else {lo} + LevelSet(lo + 1, hi)
  }

  /** Every level of `lo..hi` has an entry (a missing one is Python's KeyError). */
  predicate Covers(inputs: map<int, Expr>, lo: int, hi: int)
  {
    forall l :: lo <= l <= hi ==> l in inputs
  }

  /** The backbone levels read by the inputs at levels `lo..hi`. */
  function LeavesIn(inputs: map<int, Expr>, lo: int, hi: int): set<int>
    requires Covers(inputs, lo, hi)
    decreases hi - lo
  {
    if lo > hi then {} else Leaves(inputs[lo]) + LeavesIn(inputs, lo + 1, hi)
  }

  lemma {:induction false} LeavesInTop(inputs: map<int, Expr>, lo: int, hi: int)
    requires lo <= hi && Covers(inputs, lo, hi)
    ensures LeavesIn(inputs, lo, hi) == LeavesIn(inputs, lo, hi - 1) + Leaves(inputs[hi])
    decreases hi - lo
  {
    if lo < hi {
      LeavesInTop(inputs, lo + 1, hi);
    }
  }

  /** Each backbone level's own feature map. */
  function BackboneInputs(lo: int, hi: int): (m: map<int, Expr>)
    ensures Covers(m, lo, hi)
    ensures forall l :: l in m ==> m[l] == Feature(l)
  {
    map l | lo <= l <= hi :: Feature(l)
  }

  lemma {:induction false} BackboneLeaves(lo: int, k: int, hi: int)
    requires lo <= k
    ensures LeavesIn(BackboneInputs(lo, hi), k, hi) == LevelSet(k, hi)
    decreases hi - k
  {
    if k <= hi {
      BackboneLeaves(lo, k + 1, hi);
      assert LevelSet(k, hi) == {k} + LevelSet(k + 1, hi);
    }
  }

  // ---------------------------------------------------------------------------
  // Levels and the depth schedule

  /** The level range found by `build` and the channel depth of its lowest level. */
  datatype Levels = Levels(lo: int, hi: int, minDepth: int)

  /** The depth every `build` gives level `l`: `min_depth * 2**(l - min_level)`. */
  function DepthAt(lv: Levels, l: int): int
    requires lv.lo <= l
  {
    Doubled(lv.minDepth, l - lv.lo)
  }

  /**
   * Going up one level doubles the depth, and with a positive minimum depth
   * a higher level is strictly deeper.
   */
  lemma DepthAtGrows(lv: Levels, l: int, m: int)
    requires lv.lo <= l < m
    ensures DepthAt(lv, l + 1) == 2 * DepthAt(lv, l)
    ensures lv.minDepth > 0 ==> DepthAt(lv, l) < DepthAt(lv, m)
  {
    if lv.minDepth > 0 {
      DoubledMonotone(lv.minDepth, l - lv.lo, m - lv.lo);
    }
  }

  // ---------------------------------------------------------------------------
  // FPNTail

  /** An FPNTail layer: its filters, whether it upsamples, and the upsampling factor. */
  datatype FpnTail = FpnTail(filters: int, upsample: bool, upsampleSize: int)

  /** The value of `FPNTail.call`: a (route, upsampled) pair, or the route alone. */
  datatype TailOut = RouteAndUp(route: Expr, up: Expr) | RouteOnly(route: Expr)

  /**
   * `FPNTail.call`: the route is a 1x1 ConvBN with `filters // 2` filters;
   * with upsample, the route goes through a `filters // 4` ConvBN and an
   * UpSampling2D, and both are returned.
   */
  function TailCall(t: FpnTail, x: Expr): TailOut
  {
    var route := Apply(ConvBN(t.filters / 2), x);
    if t.upsample then
      RouteAndUp(route, Apply(UpSampling2D(t.upsampleSize), Apply(ConvBN(t.filters / 4), route)))
    else
      RouteOnly(route)
  }
  /**
   * The pair exists exactly when the tail upsamples; the route has
   * `filters // 2` channels and the upsampled map `filters // 4`, and both
   * read the same backbone levels as the tail's input.
   */
  lemma TailCallShape(t: FpnTail, x: Expr)
    ensures var r := TailCall(t, x);
            && (r.RouteAndUp? <==> t.upsample)
            && OutChannels(r.route) == Some(t.filters / 2) && Leaves(r.route) == Leaves(x)
            && (r.RouteAndUp? ==> OutChannels(r.up) == Some(t.filters / 4) && Leaves(r.up) == Leaves(x))
  {
  }


  // ---------------------------------------------------------------------------
  // The module dictionaries `build` fills

  /** YoloFPN's `preprocessors`, `resamples` and `tails`, keyed by level. */
  datatype FpnTables = FpnTables(preprocessors: map<int, Block>, resamples: map<int, Block>, tails: map<int, FpnTail>)

  /** The `preprocessors` and `resamples` of YoloRoutedDecoder and YoloFPNDecoder. */
  datatype PathTables = PathTables(preprocessors: map<int, Block>, resamples: map<int, Block>)

  // ---------------------------------------------------------------------------
  // YoloFPN: plan and top-down walk

  /** The max level gets SPP and two extra repetitions; the others get `fpn_path_len`. */
  function FpnProcessor(lv: Levels, pathLen: int, l: int): Block
    requires lv.lo <= l
  {
    if l == lv.hi then DarkRouteProcess(DepthAt(lv, l), pathLen + 2, true)
    else DarkRouteProcess(DepthAt(lv, l), pathLen, false)
  }

  function FpnResample(lv: Levels, l: int): Block
    requires lv.lo <= l
  {
    RouteMerge(DepthAt(lv, l) / 2, DefaultSampling)
  }

  /** Only the tail of the lowest level does not upsample. */
  function FpnTailAt(lv: Levels, l: int): FpnTail
    requires lv.lo <= l
  {
    FpnTail(DepthAt(lv, l), l != lv.lo, 2)
  }

  /**
   * The dictionaries YoloFPN's `call` can walk over `lo..hi`: a preprocessor
   * and a tail per level, a resampler per level but the max, and tails that
   * return the (route, upsampled) pair everywhere above the min.
   */
  ghost predicate FpnShaped(t: FpnTables, lo: int, hi: int)
  {
    && (forall l :: l in t.preprocessors <==> lo <= l <= hi)
    && (forall l :: l in t.tails <==> lo <= l <= hi)
    && (forall l :: l in t.resamples <==> lo <= l < hi)
    && (forall l :: lo < l <= hi ==> t.tails[l].upsample)
  }

  /** The blocks YoloFPN's `build` puts at each level. */
  ghost predicate FpnPlanned(t: FpnTables, lv: Levels, pathLen: int)
  {
    && (forall l :: lv.lo <= l <= lv.hi && l in t.preprocessors ==> t.preprocessors[l] == FpnProcessor(lv, pathLen, l))
    && (forall l :: lv.lo <= l <= lv.hi && l in t.tails ==> t.tails[l] == FpnTailAt(lv, l))
    && (forall l :: lv.lo <= l < lv.hi && l in t.resamples ==> t.resamples[l] == FpnResample(lv, l))
  }

  /** The `layer_in` of `YoloFPN.call` at level `l`. */
  function FpnLayerIn(t: FpnTables, lo: int, hi: int, inputs: map<int, Expr>, l: int): Expr
    requires FpnShaped(t, lo, hi) && lo <= l <= hi && Covers(inputs, l, hi)
    decreases hi - l
  {
    if l == hi then inputs[l]
    else
      var x := MainOut(t.preprocessors[l + 1], FpnLayerIn(t, lo, hi, inputs, l + 1));
      Merge(t.resamples[l], inputs[l], TailCall(t.tails[l + 1], x).up)
  }

  /** The output of `YoloFPN.call` at level `l`: the route of that level's tail. */
  function FpnOutput(t: FpnTables, lo: int, hi: int, inputs: map<int, Expr>, l: int): Expr
    requires FpnShaped(t, lo, hi) && lo <= l <= hi && Covers(inputs, l, hi)
  {
    TailCall(t.tails[l], MainOut(t.preprocessors[l], FpnLayerIn(t, lo, hi, inputs, l))).route
  }

  function FpnOutputs(t: FpnTables, lo: int, hi: int, inputs: map<int, Expr>): (m: map<int, Expr>)
    requires FpnShaped(t, lo, hi) && Covers(inputs, lo, hi)
    ensures m.Keys == LevelSet(lo, hi)
  {
    map l | lo <= l <= hi :: FpnOutput(t, lo, hi, inputs, l)
  }

  /** The FPN output at level `l` reads exactly the inputs at levels `l..max`. */
  lemma {:induction false} FpnLeaves(t: FpnTables, lo: int, hi: int, inputs: map<int, Expr>, l: int)
    requires FpnShaped(t, lo, hi) && lo <= l <= hi && Covers(inputs, l, hi)
    ensures Leaves(FpnLayerIn(t, lo, hi, inputs, l)) == LeavesIn(inputs, l, hi)
    ensures Leaves(FpnOutput(t, lo, hi, inputs, l)) == LeavesIn(inputs, l, hi)
    decreases hi - l
  {
    if l < hi {
      FpnLeaves(t, lo, hi, inputs, l + 1);
      TailCallShape(t.tails[l + 1], MainOut(t.preprocessors[l + 1], FpnLayerIn(t, lo, hi, inputs, l + 1)));
    }
    TailCallShape(t.tails[l], MainOut(t.preprocessors[l], FpnLayerIn(t, lo, hi, inputs, l)));
  }

  /** Changing inputs below level `l` does not change the FPN output at `l`. */
  lemma {:induction false} FpnOutputLocal(t: FpnTables, lo: int, hi: int, in1: map<int, Expr>, in2: map<int, Expr>, l: int)
    requires FpnShaped(t, lo, hi) && lo <= l <= hi && Covers(in1, l, hi) && Covers(in2, l, hi)
    requires forall k :: l <= k <= hi ==> in1[k] == in2[k]
    ensures FpnLayerIn(t, lo, hi, in1, l) == FpnLayerIn(t, lo, hi, in2, l)
    ensures FpnOutput(t, lo, hi, in1, l) == FpnOutput(t, lo, hi, in2, l)
    decreases hi - l
  {
    if l < hi {
      FpnOutputLocal(t, lo, hi, in1, in2, l + 1);
    }
  }

  /** With the planned tails, every FPN output has half its level's depth in channels. */
  lemma FpnOutputChannels(t: FpnTables, lv: Levels, pathLen: int, inputs: map<int, Expr>, l: int)
    requires FpnShaped(t, lv.lo, lv.hi) && FpnPlanned(t, lv, pathLen)
    requires lv.lo <= l <= lv.hi && Covers(inputs, l, lv.hi)
    ensures OutChannels(FpnOutput(t, lv.lo, lv.hi, inputs, l)) == Some(DepthAt(lv, l) / 2)
  {
    TailCallShape(t.tails[l], MainOut(t.preprocessors[l], FpnLayerIn(t, lv.lo, lv.hi, inputs, l)));
  }

  // ---------------------------------------------------------------------------
  // Path lengths shared by YoloRoutedDecoder and YoloFPNDecoder

  /** `path_process_len`, the resolved `max_level_process_len`, and `embed_spp`. */
  datatype PathConfig = PathConfig(pathLen: int, maxLevelLen: int, embedSpp: bool)

  /** The repetitions of the block that may carry SPP: two more when it does. */
  function SppRepetitions(pc: PathConfig): int
  {
    pc.maxLevelLen + 2 * (if pc.embedSpp then 1 else 0)
  }

  // ---------------------------------------------------------------------------
  // YoloRoutedDecoder: plan and top-down walk

  function RoutedProcessor(lv: Levels, pc: PathConfig, l: int): Block
    requires lv.lo <= l
  {
    if l == lv.hi then DarkRouteProcess(DepthAt(lv, l), SppRepetitions(pc), pc.embedSpp)
    else DarkRouteProcess(DepthAt(lv, l), pc.pathLen, false)
  }

  function RoutedResample(lv: Levels, l: int): Block
    requires lv.lo <= l
  {
    RouteMerge(DepthAt(lv, l) / 2, Upsample)
  }

  /** A preprocessor per level and a resampler per level but the max. */
  ghost predicate RoutedShaped(t: PathTables, lo: int, hi: int)
  {
    && (forall l :: l in t.preprocessors <==> lo <= l <= hi)
    && (forall l :: l in t.resamples <==> lo <= l < hi)
  }

  ghost predicate RoutedPlanned(t: PathTables, lv: Levels, pc: PathConfig)
  {
    && (forall l :: lv.lo <= l <= lv.hi && l in t.preprocessors ==> t.preprocessors[l] == RoutedProcessor(lv, pc, l))
    && (forall l :: lv.lo <= l < lv.hi && l in t.resamples ==> t.resamples[l] == RoutedResample(lv, l))
  }

  /** The `layer_in` of `YoloRoutedDecoder.call` at level `l`. */
  function RoutedLayerIn(t: PathTables, lo: int, hi: int, inputs: map<int, Expr>, l: int): Expr
    requires RoutedShaped(t, lo, hi) && lo <= l <= hi && Covers(inputs, l, hi)
    decreases hi - l
  {
    if l == hi then inputs[l]
    else Merge(t.resamples[l], RouteOut(t.preprocessors[l + 1], RoutedLayerIn(t, lo, hi, inputs, l + 1)), inputs[l])
  }

  function RoutedOutput(t: PathTables, lo: int, hi: int, inputs: map<int, Expr>, l: int): Expr
    requires RoutedShaped(t, lo, hi) && lo <= l <= hi && Covers(inputs, l, hi)
  {
    MainOut(t.preprocessors[l], RoutedLayerIn(t, lo, hi, inputs, l))
  }

  function RoutedOutputs(t: PathTables, lo: int, hi: int, inputs: map<int, Expr>): (m: map<int, Expr>)
    requires RoutedShaped(t, lo, hi) && Covers(inputs, lo, hi)
    ensures m.Keys == LevelSet(lo, hi)
  {
    map l | lo <= l <= hi :: RoutedOutput(t, lo, hi, inputs, l)
  }

  /** The routed output at level `l` reads exactly the inputs at levels `l..max`. */
  lemma {:induction false} RoutedLeaves(t: PathTables, lo: int, hi: int, inputs: map<int, Expr>, l: int)
    requires RoutedShaped(t, lo, hi) && lo <= l <= hi && Covers(inputs, l, hi)
    ensures Leaves(RoutedLayerIn(t, lo, hi, inputs, l)) == LeavesIn(inputs, l, hi)
    ensures Leaves(RoutedOutput(t, lo, hi, inputs, l)) == LeavesIn(inputs, l, hi)
    decreases hi - l
  {
    if l < hi {
      RoutedLeaves(t, lo, hi, inputs, l + 1);
    }
  }

  /** Changing inputs below level `l` does not change the routed output at `l`. */
  lemma {:induction false} RoutedOutputLocal(t: PathTables, lo: int, hi: int, in1: map<int, Expr>, in2: map<int, Expr>, l: int)
    requires RoutedShaped(t, lo, hi) && lo <= l <= hi && Covers(in1, l, hi) && Covers(in2, l, hi)
    requires forall k :: l <= k <= hi ==> in1[k] == in2[k]
    ensures RoutedLayerIn(t, lo, hi, in1, l) == RoutedLayerIn(t, lo, hi, in2, l)
    ensures RoutedOutput(t, lo, hi, in1, l) == RoutedOutput(t, lo, hi, in2, l)
    decreases hi - l
  {
    if l < hi {
      RoutedOutputLocal(t, lo, hi, in1, in2, l + 1);
    }
  }

  // ---------------------------------------------------------------------------
  // YoloFPNDecoder: plan and bottom-up walk

  /** Every processor of the bottom-up decoder has twice the level's depth. */
  function PanProcessor(lv: Levels, pc: PathConfig, l: int): Block
    requires lv.lo <= l
  {
    if l == lv.lo then DarkRouteProcess(DepthAt(lv, l) * 2, SppRepetitions(pc), pc.embedSpp)
    else DarkRouteProcess(DepthAt(lv, l) * 2, pc.pathLen, false)
  }

  function PanResample(lv: Levels, l: int): Block
    requires lv.lo <= l
  {
    RouteMerge(DepthAt(lv, l), Downsample)
  }

  /** A preprocessor per level and a resampler per level but the min. */
  ghost predicate PanShaped(t: PathTables, lo: int, hi: int)
  {
    && (forall l :: l in t.preprocessors <==> lo <= l <= hi)
    && (forall l :: l in t.resamples <==> lo < l <= hi)
  }

  ghost predicate PanPlanned(t: PathTables, lv: Levels, pc: PathConfig)
  {
    && (forall l :: lv.lo <= l <= lv.hi && l in t.preprocessors ==> t.preprocessors[l] == PanProcessor(lv, pc, l))
    && (forall l :: lv.lo < l <= lv.hi && l in t.resamples ==> t.resamples[l] == PanResample(lv, l))
  }

  /** The `layer_in` of `YoloFPNDecoder.call` at level `l`. */
  function PanLayerIn(t: PathTables, lo: int, hi: int, inputs: map<int, Expr>, l: int): Expr
    requires PanShaped(t, lo, hi) && lo <= l <= hi && Covers(inputs, lo, l)
    decreases l - lo
  {
    if l == lo then inputs[l]
    else Merge(t.resamples[l], RouteOut(t.preprocessors[l - 1], PanLayerIn(t, lo, hi, inputs, l - 1)), inputs[l])
  }

  function PanOutput(t: PathTables, lo: int, hi: int, inputs: map<int, Expr>, l: int): Expr
    requires PanShaped(t, lo, hi) && lo <= l <= hi && Covers(inputs, lo, l)
  {
    MainOut(t.preprocessors[l], PanLayerIn(t, lo, hi, inputs, l))
  }

  function PanOutputs(t: PathTables, lo: int, hi: int, inputs: map<int, Expr>): (m: map<int, Expr>)
    requires PanShaped(t, lo, hi) && Covers(inputs, lo, hi)
    ensures m.Keys == LevelSet(lo, hi)
  {
    map l | lo <= l <= hi :: PanOutput(t, lo, hi, inputs, l)
  }

  /** The bottom-up output at level `l` reads exactly the inputs at levels `min..l`. */
  lemma {:induction false} PanLeaves(t: PathTables, lo: int, hi: int, inputs: map<int, Expr>, l: int)
    requires PanShaped(t, lo, hi) && lo <= l <= hi && Covers(inputs, lo, l)
    ensures Leaves(PanLayerIn(t, lo, hi, inputs, l)) == LeavesIn(inputs, lo, l)
    ensures Leaves(PanOutput(t, lo, hi, inputs, l)) == LeavesIn(inputs, lo, l)
    decreases l - lo
  {
    if l > lo {
      PanLeaves(t, lo, hi, inputs, l - 1);
      LeavesInTop(inputs, lo, l);
    }
  }

  /** Changing inputs above level `l` does not change the bottom-up output at `l`. */
  lemma {:induction false} PanOutputLocal(t: PathTables, lo: int, hi: int, in1: map<int, Expr>, in2: map<int, Expr>, l: int)
    requires PanShaped(t, lo, hi) && lo <= l <= hi && Covers(in1, lo, l) && Covers(in2, lo, l)
    requires forall k :: lo <= k <= l ==> in1[k] == in2[k]
    ensures PanLayerIn(t, lo, hi, in1, l) == PanLayerIn(t, lo, hi, in2, l)
    ensures PanOutput(t, lo, hi, in1, l) == PanOutput(t, lo, hi, in2, l)
    decreases l - lo
  {
    if l > lo {
      PanOutputLocal(t, lo, hi, in1, in2, l - 1);
    }
  }

  // ---------------------------------------------------------------------------
  // YoloDecoder composition

  /** The FPN's outputs have half the FPN's depths, so the bottom-up decoder starts at half the minimum depth. */
  function PanLevelsAfterFpn(lv: Levels): Levels
  {
    Levels(lv.lo, lv.hi, lv.minDepth / 2)
  }

  /**
   * With `embed_fpn` on backbone features, every output level of the
   * bottom-up decoder reads every backbone level.
   */
  lemma ComposedLeaves(ft: FpnTables, pt: PathTables, lo: int, hi: int, l: int)
    requires FpnShaped(ft, lo, hi) && PanShaped(pt, lo, hi) && lo <= l <= hi
    ensures var mid := FpnOutputs(ft, lo, hi, BackboneInputs(lo, hi));
            Leaves(PanOutput(pt, lo, hi, mid, l)) == LevelSet(lo, hi)
  {
    var mid := FpnOutputs(ft, lo, hi, BackboneInputs(lo, hi));
    forall j | lo <= j <= hi
      ensures forall x :: x in Leaves(mid[j]) <==> j <= x <= hi
    {
      MidTop(ft, lo, hi, j);
    }
    PanReadsAll(pt, lo, hi, mid, l);
  }

  /** A bottom-up output over inputs whose level `j` reads the levels `j..max` reads every level. */
  lemma PanReadsAll(pt: PathTables, lo: int, hi: int, mid: map<int, Expr>, l: int)
    requires PanShaped(pt, lo, hi) && Covers(mid, lo, hi) && lo <= l <= hi
    requires forall j :: lo <= j <= hi ==> forall x :: x in Leaves(mid[j]) <==> j <= x <= hi
    ensures Leaves(PanOutput(pt, lo, hi, mid, l)) == LevelSet(lo, hi)
  {
    MidLeaves(mid, lo, hi, l);
    PanLeaves(pt, lo, hi, mid, l);
    assert forall x :: x in Leaves(PanOutput(pt, lo, hi, mid, l)) <==> x in LevelSet(lo, hi);
  }

  /** Without `embed_fpn`, the routed output at level `l` reads only the backbone levels `l..max`. */
  lemma RoutedBackboneLeaves(rt: PathTables, lo: int, hi: int, l: int)
    requires RoutedShaped(rt, lo, hi) && lo <= l <= hi
    ensures Leaves(RoutedOutput(rt, lo, hi, BackboneInputs(lo, hi), l)) == LevelSet(l, hi)
  {
    RoutedLeaves(rt, lo, hi, BackboneInputs(lo, hi), l);
    BackboneLeaves(lo, l, hi);
  }

  /** Inputs whose level `j` reads the levels `j..max` read, from `lo` up to `k`, every level. */
  lemma {:induction false} MidLeaves(mid: map<int, Expr>, lo: int, hi: int, k: int)
    requires Covers(mid, lo, hi) && lo <= k <= hi
    requires forall j :: lo <= j <= hi ==> forall x :: x in Leaves(mid[j]) <==> j <= x <= hi
    ensures forall x :: x in LeavesIn(mid, lo, k) <==> lo <= x <= hi
    decreases k - lo
  {
    LeavesInTop(mid, lo, k);
    if k > lo {
      MidLeaves(mid, lo, hi, k - 1);
    }
  }

  /** The FPN output at level `k` over backbone features reads the levels `k..max`. */
  lemma MidTop(ft: FpnTables, lo: int, hi: int, k: int)
    requires FpnShaped(ft, lo, hi) && lo <= k <= hi
    ensures Leaves(FpnOutputs(ft, lo, hi, BackboneInputs(lo, hi))[k]) == LevelSet(k, hi)
  {
    var bb := BackboneInputs(lo, hi);
    FpnLeaves(ft, lo, hi, bb, k);
    BackboneLeaves(lo, k, hi);
  }

  /**
   * The channel count the bottom-up decoder reads at each level is half the
   * FPN's depth there; at the lowest level that is `min_depth // 2`.
   */
  lemma FpnFeedsPan(ft: FpnTables, lv: Levels, fpnPathLen: int, inputs: map<int, Expr>, l: int)
    requires FpnShaped(ft, lv.lo, lv.hi) && FpnPlanned(ft, lv, fpnPathLen)
    requires lv.lo <= l <= lv.hi && Covers(inputs, lv.lo, lv.hi)
    ensures OutChannels(FpnOutputs(ft, lv.lo, lv.hi, inputs)[l]) == Some(DepthAt(lv, l) / 2)
    ensures OutChannels(FpnOutputs(ft, lv.lo, lv.hi, inputs)[lv.lo]) == Some(PanLevelsAfterFpn(lv).minDepth)
  {
    FpnOutputChannels(ft, lv, fpnPathLen, inputs, l);
    FpnOutputChannels(ft, lv, fpnPathLen, inputs, lv.lo);
  }
}
