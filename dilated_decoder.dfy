/**
 * The decoder models of dilated_decoder.py: YoloFPN, YoloRoutedDecoder,
 * YoloFPNDecoder and their composition YoloDecoder.
 *
 * Each model is a class. `Build` receives the channel count of every input
 * level (the last dimension of each input shape) and fills the per-level
 * module dictionaries; `Call` walks the level range over those dictionaries
 * and is proved to return the outputs that DecoderPlan defines.
 */
module DilatedDecoder {
  import opened Wrappers
  import opened Arith
  import opened DecoderPlan
  import opened MapFacts

  /** The keyword arguments every block of a model receives (`_base_config`). */
  datatype BaseConfig = BaseConfig(
    activation: string,
    useSyncBn: bool,
    normMomentum: real,
    normEpsilon: real,
    kernelInitializer: string,
    kernelRegularizer: Option<string>,
    biasRegularizer: Option<string>)

  /** The same arguments as a constructor receives them: `activation` may be None. */
  datatype BaseArgs = BaseArgs(
    activation: Option<string>,
    useSyncBn: bool,
    normMomentum: real,
    normEpsilon: real,
    kernelInitializer: string,
    kernelRegularizer: Option<string>,
    biasRegularizer: Option<string>)

  /** What every constructor stores: a None activation becomes "leaky". */
  function Normalise(a: BaseArgs): BaseConfig
  {
    BaseConfig(if a.activation.None? then "leaky" else a.activation.value,
               a.useSyncBn, a.normMomentum, a.normEpsilon,
               a.kernelInitializer, a.kernelRegularizer, a.biasRegularizer)
  }

  /** A stored configuration passed back as keyword arguments. */
  function BaseArgsOf(c: BaseConfig): BaseArgs
  {
    BaseArgs(Some(c.activation), c.useSyncBn, c.normMomentum, c.normEpsilon,
             c.kernelInitializer, c.kernelRegularizer, c.biasRegularizer)
  }

  // ---------------------------------------------------------------------------
  // Sets and maps of levels

  /** Maps keyed by the same levels are empty together. */
  lemma SameKeysEmpty<U, V>(a: map<int, U>, b: map<int, V>)
    requires forall l :: l in a <==> l in b
    ensures a.Keys == {} <==> b.Keys == {}
  {
    if a.Keys != {} {
      NonEmptyHasMember(a.Keys);
    }
    if b.Keys != {} {
      NonEmptyHasMember(b.Keys);
    }
  }

  /** Python's `min(keys)` and `max(keys)` over the levels of the input dictionary. */
  method MinMaxLevels(keys: set<int>) returns (lo: int, hi: int)
    requires keys != {}
    ensures lo in keys && hi in keys
    ensures forall k :: k in keys ==> lo <= k <= hi
  {
    NonEmptyHasMember(keys);
    var k0 :| k0 in keys;
    lo, hi := k0, k0;
    var rest := keys - {k0};
    while rest != {}
      invariant rest <= keys
      invariant lo in keys && hi in keys
      invariant forall k :: k in keys && k !in rest ==> lo <= k <= hi
      decreases rest
    {
      NonEmptyHasMember(rest);
      var k :| k in rest;
      if k < lo { lo := k; }
      if k > hi { hi := k; }
      rest := rest - {k};
    }
  }

  /** The min and max of the keys `lo..hi` are `lo` and `hi`. */
  lemma ExtremesOfRange(c: map<int, int>, lo: int, hi: int, a: int, b: int)
    requires forall l :: l in c <==> lo <= l <= hi
    requires a in c && b in c && forall k :: k in c ==> a <= k <= b
    ensures a == lo && b == hi
  {
    assert lo in c && hi in c;
  }

  /**
   * The levels `build` reads off the input shapes: the smallest and largest
   * key, and the channel count of the smallest.
   */
  ghost predicate LevelsOf(channels: map<int, int>, lv: Levels)
  {
    && lv.lo in channels && lv.hi in channels
    && (forall k :: k in channels ==> lv.lo <= k <= lv.hi)
    && lv.minDepth == channels[lv.lo]
  }

  /** The level range of `build`, or None when there is no key (`min` of an empty list raises). */
  method ReadLevels(channels: map<int, int>) returns (r: Option<Levels>)
    ensures r.Some? <==> channels.Keys != {}
    ensures r.Some? ==> LevelsOf(channels, r.value)
  {
    if channels.Keys == {} {
      return None;
    }
    var lo, hi := MinMaxLevels(channels.Keys);
    r := Some(Levels(lo, hi, channels[lo]));
  }

  // ---------------------------------------------------------------------------
  // Depth schedules

  /** The number of levels in `range(lo, hi + 1)`. */
  function RangeLength(lo: int, hi: int): nat
  {
    if hi >= lo then hi - lo + 1 else 0
  }

  /** `count` depths starting at `minimumDepth`, each twice the one before. */
  function Schedule(minimumDepth: int, count: nat): seq<int>
  {
    seq(count, i requires 0 <= i < count => Doubled(minimumDepth, i))
  }

  /**
   * The loop shared by the three `get_raw_depths`: append the depth, then
   * double it, once per level.
   */
  method DoublingDepths(count: nat, minimumDepth: int) returns (depths: seq<int>)
    ensures depths == Schedule(minimumDepth, count)
  {
    depths := [];
    var d := minimumDepth;
    var i := 0;
    while i < count
      invariant 0 <= i <= count && |depths| == i
      invariant forall j :: 0 <= j < i ==> depths[j] == Doubled(minimumDepth, j)
      invariant d == Doubled(minimumDepth, i)
    {
      ghost var prev := depths;
      depths := depths + [d];
      forall j | 0 <= j <= i
        ensures depths[j] == Doubled(minimumDepth, j)
      {
        if j < i {
          assert depths[j] == prev[j];
        }
      }
      d := d * 2;
      i := i + 1;
    }
  }

  /**
   * The schedule starts at the minimum depth, each entry doubles the one
   * before, entry i is `minimum_depth * 2**i`, and with a positive minimum
   * depth it strictly increases.
   */
  lemma ScheduleShape(minimumDepth: int, count: nat)
    ensures var s := Schedule(minimumDepth, count);
            && (count > 0 ==> s[0] == minimumDepth)
            && (forall i :: 0 < i < count ==> s[i] == 2 * s[i - 1])
            && (forall i :: 0 <= i < count ==> s[i] == minimumDepth * Pow2(i))
            && (minimumDepth > 0 ==> forall i, j :: 0 <= i < j < count ==> s[i] < s[j])
  {
    var s := Schedule(minimumDepth, count);
    forall i | 0 <= i < count
      ensures s[i] == minimumDepth * Pow2(i)
    {
      DoubledIsPow2(minimumDepth, i);
    }
    if minimumDepth > 0 {
      forall i, j | 0 <= i < j < count
        ensures s[i] < s[j]
      {
        DoubledMonotone(minimumDepth, i, j);
      }
    }
  }

  /** Python's `list(reversed(s))`. */
  function Reversed<T>(s: seq<T>): (r: seq<T>)
    ensures |r| == |s|
    ensures forall i :: 0 <= i < |s| ==> r[i] == s[|s| - 1 - i]
  {
    seq(|s|, i requires 0 <= i < |s| => s[|s| - 1 - i])
  }

  /** Reversing twice gives the sequence back. */
  lemma ReversedTwice<T>(s: seq<T>)
    ensures Reversed(Reversed(s)) == s
  {
    assert forall i :: 0 <= i < |s| ==> Reversed(Reversed(s))[i] == s[i];
  }

  /**
   * Reversed, the schedule lists the depths of the levels from the max level
   * down; it ends at the minimum depth and strictly decreases when that is
   * positive.
   */
  lemma ReversedScheduleIsDepthAt(lv: Levels)
    requires lv.lo <= lv.hi
    ensures var d := Reversed(Schedule(lv.minDepth, lv.hi - lv.lo + 1));
            && (forall i :: 0 <= i < |d| ==> d[i] == DepthAt(lv, lv.hi - i))
            && d[|d| - 1] == lv.minDepth
            && (lv.minDepth > 0 ==> forall i, j :: 0 <= i < j < |d| ==> d[i] > d[j])
  {
    var n := lv.hi - lv.lo + 1;
    var d := Reversed(Schedule(lv.minDepth, n));
    forall i | 0 <= i < n
      ensures d[i] == DepthAt(lv, lv.hi - i)
    {
      assert n - 1 - i == lv.hi - i - lv.lo;
    }
    if lv.minDepth > 0 {
      forall i, j | 0 <= i < j < n
        ensures d[i] > d[j]
      {
        DoubledMonotone(lv.minDepth, n - 1 - j, n - 1 - i);
      }
    }
  }

  /** Not reversed, the schedule lists the depths from the min level up. */
  lemma ScheduleIsDepthAt(lv: Levels)
    requires lv.lo <= lv.hi
    ensures var d := Schedule(lv.minDepth, lv.hi - lv.lo + 1);
            forall i :: 0 <= i < |d| ==> d[i] == DepthAt(lv, lv.lo + i)
  {
    var d := Schedule(lv.minDepth, lv.hi - lv.lo + 1);
    forall i | 0 <= i < |d|
      ensures d[i] == DepthAt(lv, lv.lo + i)
    {
      assert lv.lo + i - lv.lo == i;
    }
  }

  // ---------------------------------------------------------------------------
  // The `build` loops over the dictionaries

  /** The state YoloFPN's `build` leaves: the planned dictionaries over a non-empty range. */
  ghost predicate FpnBuilt(lv: Levels, pathLen: int, t: FpnTables)
  {
    lv.lo <= lv.hi && FpnShaped(t, lv.lo, lv.hi) && FpnPlanned(t, lv, pathLen)
  }

  /** The state YoloRoutedDecoder's `build` leaves. */
  ghost predicate RoutedBuilt(lv: Levels, pc: PathConfig, t: PathTables)
  {
    lv.lo <= lv.hi && RoutedShaped(t, lv.lo, lv.hi) && RoutedPlanned(t, lv, pc)
  }

  /** The state YoloFPNDecoder's `build` leaves. */
  ghost predicate PanBuilt(lv: Levels, pc: PathConfig, t: PathTables)
  {
    lv.lo <= lv.hi && PanShaped(t, lv.lo, lv.hi) && PanPlanned(t, lv, pc)
  }

  /**
   * The loop of `YoloFPN.build` over `zip(reversed(range(min, max + 1)), depths)`:
   * it fills the three dictionaries with the planned blocks.
   */
  method FpnBuildTables(lv: Levels, pathLen: int, depths: seq<int>) returns (t: FpnTables)
    requires lv.lo <= lv.hi && |depths| == lv.hi - lv.lo + 1
    requires forall i :: 0 <= i < |depths| ==> depths[i] == DepthAt(lv, lv.hi - i)
    ensures FpnBuilt(lv, pathLen, t)
  {
    var lo, hi := lv.lo, lv.hi;
    var res: map<int, Block> := map[];
    var pre: map<int, Block> := map[];
    var tl: map<int, FpnTail> := map[];
    var i := 0;
    while i < |depths|
      invariant 0 <= i <= |depths|
      invariant forall l :: l in pre <==> hi - i < l <= hi
      invariant forall l :: l in tl <==> hi - i < l <= hi
      invariant forall l :: l in res <==> hi - i < l < hi
      invariant forall l :: hi - i < l <= hi ==> pre[l] == FpnProcessor(lv, pathLen, l)
      invariant forall l :: hi - i < l <= hi ==> tl[l] == FpnTailAt(lv, l)
      invariant forall l :: hi - i < l < hi ==> res[l] == FpnResample(lv, l)
    {
      var level := hi - i;
      var depth := depths[i];
      if level != hi {
        res := res[level := RouteMerge(depth / 2, DefaultSampling)];
        pre := pre[level := DarkRouteProcess(depth, pathLen, false)];
      } else {
        pre := pre[level := DarkRouteProcess(depth, pathLen + 2, true)];
      }
      // Every tail upsamples except the min level's.
      tl := tl[level := FpnTail(depth, level != lo, 2)];
      i := i + 1;
    }
    t := FpnTables(pre, res, tl);
  }

  /** The loop of `YoloRoutedDecoder.build`, from the max level down. */
  method RoutedBuildTables(lv: Levels, pc: PathConfig, depths: seq<int>) returns (t: PathTables)
    requires lv.lo <= lv.hi && |depths| == lv.hi - lv.lo + 1
    requires forall i :: 0 <= i < |depths| ==> depths[i] == DepthAt(lv, lv.hi - i)
    ensures RoutedBuilt(lv, pc, t)
  {
    var hi := lv.hi;
    var res: map<int, Block> := map[];
    var pre: map<int, Block> := map[];
    var i := 0;
    while i < |depths|
      invariant 0 <= i <= |depths|
      invariant forall l :: l in pre <==> hi - i < l <= hi
      invariant forall l :: l in res <==> hi - i < l < hi
      invariant forall l :: hi - i < l <= hi ==> pre[l] == RoutedProcessor(lv, pc, l)
      invariant forall l :: hi - i < l < hi ==> res[l] == RoutedResample(lv, l)
    {
      var level := hi - i;
      var depth := depths[i];
      if level == hi {
        pre := pre[level := DarkRouteProcess(depth, SppRepetitions(pc), pc.embedSpp)];
      } else {
        res := res[level := RouteMerge(depth / 2, Upsample)];
        pre := pre[level := DarkRouteProcess(depth, pc.pathLen, false)];
      }
      i := i + 1;
    }
    t := PathTables(pre, res);
  }

  /** The loop of `YoloFPNDecoder.build`, from the min level up. */
  method PanBuildTables(lv: Levels, pc: PathConfig, depths: seq<int>) returns (t: PathTables)
    requires lv.lo <= lv.hi && |depths| == lv.hi - lv.lo + 1
    requires forall i :: 0 <= i < |depths| ==> depths[i] == DepthAt(lv, lv.lo + i)
    ensures PanBuilt(lv, pc, t)
  {
    var lo := lv.lo;
    var res: map<int, Block> := map[];
    var pre: map<int, Block> := map[];
    var i := 0;
    while i < |depths|
      invariant 0 <= i <= |depths|
      invariant forall l :: l in pre <==> lo <= l < lo + i
      invariant forall l :: l in res <==> lo < l < lo + i
      invariant forall l :: lo <= l < lo + i ==> pre[l] == PanProcessor(lv, pc, l)
      invariant forall l :: lo < l < lo + i ==> res[l] == PanResample(lv, l)
    {
      var level := lo + i;
      var depth := depths[i];
      if level == lo {
        pre := pre[level := DarkRouteProcess(depth * 2, SppRepetitions(pc), pc.embedSpp)];
      } else {
        res := res[level := RouteMerge(depth, Downsample)];
        pre := pre[level := DarkRouteProcess(depth * 2, pc.pathLen, false)];
      }
      i := i + 1;
    }
    t := PathTables(pre, res);
  }

  // ---------------------------------------------------------------------------
  // The `call` loops over the dictionaries

  /**
   * The loop of `YoloFPN.call`: from the max level down, each level's
   * output is its tail's route; a missing input level is a KeyError (None).
   */
  method FpnWalk(t: FpnTables, lo: int, hi: int, inputs: map<int, Expr>) returns (r: Option<map<int, Expr>>)
    requires lo <= hi && FpnShaped(t, lo, hi)
    ensures r.Some? <==> Covers(inputs, lo, hi)
    ensures r.Some? ==> r.value == FpnOutputs(t, lo, hi, inputs)
  {
    if hi !in inputs {
      return None;
    }
    var outputs: map<int, Expr> := map[];
    var layerIn := inputs[hi];
    var level := hi;
    while level >= lo
      invariant lo - 1 <= level <= hi
      invariant Covers(inputs, Max(level, lo), hi)
      invariant level >= lo ==> layerIn == FpnLayerIn(t, lo, hi, inputs, level)
      invariant forall l :: l in outputs <==> level < l <= hi
      invariant forall l :: level < l <= hi ==> outputs[l] == FpnOutput(t, lo, hi, inputs, l)
      decreases level - lo + 1
    {
      var x := MainOut(t.preprocessors[level], layerIn);
      var xRoute: Expr;
      if level > lo {
        var pair := TailCall(t.tails[level], x);
        xRoute := pair.route;
        if level - 1 !in inputs {
          return None;
        }
        layerIn := Merge(t.resamples[level - 1], inputs[level - 1], pair.up);
      } else {
        xRoute := TailCall(t.tails[level], x).route;
      }
      ghost var prev := outputs;
      outputs := outputs[level := xRoute];
      forall l | level <= l <= hi
        ensures outputs[l] == FpnOutput(t, lo, hi, inputs, l)
      {
        if l != level {
          assert outputs[l] == prev[l];
        }
      }
      level := level - 1;
    }
    SameMap(outputs, FpnOutputs(t, lo, hi, inputs));
    r := Some(outputs);
  }

  /** The loop of `YoloRoutedDecoder.call`: from the max level down. */
  method RoutedWalk(t: PathTables, lo: int, hi: int, inputs: map<int, Expr>) returns (r: Option<map<int, Expr>>)
    requires lo <= hi && RoutedShaped(t, lo, hi)
    ensures r.Some? <==> Covers(inputs, lo, hi)
    ensures r.Some? ==> r.value == RoutedOutputs(t, lo, hi, inputs)
  {
    if hi !in inputs {
      return None;
    }
    var outputs: map<int, Expr> := map[];
    var layerIn := inputs[hi];
    var level := hi;
    while level >= lo
      invariant lo - 1 <= level <= hi
      invariant Covers(inputs, Max(level, lo), hi)
      invariant level >= lo ==> layerIn == RoutedLayerIn(t, lo, hi, inputs, level)
      invariant forall l :: l in outputs <==> level < l <= hi
      invariant forall l :: level < l <= hi ==> outputs[l] == RoutedOutput(t, lo, hi, inputs, l)
      decreases level - lo + 1
    {
      var xRoute := RouteOut(t.preprocessors[level], layerIn);
      var x := MainOut(t.preprocessors[level], layerIn);
      ghost var prev := outputs;
      outputs := outputs[level := x];
      forall l | level <= l <= hi
        ensures outputs[l] == RoutedOutput(t, lo, hi, inputs, l)
      {
        if l != level {
          assert outputs[l] == prev[l];
        }
      }
      if level > lo {
        if level - 1 !in inputs {
          return None;
        }
        layerIn := Merge(t.resamples[level - 1], xRoute, inputs[level - 1]);
      }
      level := level - 1;
    }
    SameMap(outputs, RoutedOutputs(t, lo, hi, inputs));
    r := Some(outputs);
  }

  /** The loop of `YoloFPNDecoder.call`: from the min level up. */
  method PanWalk(t: PathTables, lo: int, hi: int, inputs: map<int, Expr>) returns (r: Option<map<int, Expr>>)
    requires lo <= hi && PanShaped(t, lo, hi)
    ensures r.Some? <==> Covers(inputs, lo, hi)
    ensures r.Some? ==> r.value == PanOutputs(t, lo, hi, inputs)
  {
    if lo !in inputs {
      return None;
    }
    var outputs: map<int, Expr> := map[];
    var layerIn := inputs[lo];
    var level := lo;
    while level <= hi
      invariant lo <= level <= hi + 1
      invariant Covers(inputs, lo, Min(level, hi))
      invariant level <= hi ==> layerIn == PanLayerIn(t, lo, hi, inputs, level)
      invariant forall l :: l in outputs <==> lo <= l < level
      invariant forall l :: lo <= l < level ==> outputs[l] == PanOutput(t, lo, hi, inputs, l)
      decreases hi - level
    {
      var xRoute := RouteOut(t.preprocessors[level], layerIn);
      var x := MainOut(t.preprocessors[level], layerIn);
      if level < hi {
        if level + 1 !in inputs {
          return None;
        }
        layerIn := Merge(t.resamples[level + 1], xRoute, inputs[level + 1]);
      }
      ghost var prev := outputs;
      outputs := outputs[level := x];
      forall l | lo <= l <= level
        ensures outputs[l] == PanOutput(t, lo, hi, inputs, l)
      {
        if l != level {
          assert outputs[l] == prev[l];
        }
      }
      level := level + 1;
    }
    SameMap(outputs, PanOutputs(t, lo, hi, inputs));
    r := Some(outputs);
  }

  // ---------------------------------------------------------------------------

  /** The top-down feature pyramid (`YoloFPN`). */
  class YoloFPN {
    const fpnPathLen: int
    const base: BaseConfig
    var minLevel: int
    var maxLevel: int
    var minDepth: int
    var depths: seq<int>
    var resamples: map<int, Block>
    var preprocessors: map<int, Block>
    var tails: map<int, FpnTail>
    /** Keras' `built` flag: set by the first `build` that succeeds. */
    var built: bool

    constructor (fpnPathLen: int, args: BaseArgs)
      ensures this.fpnPathLen == fpnPathLen && base == Normalise(args)
      ensures resamples == map[] && preprocessors == map[] && tails == map[]
      ensures !built
    {
      this.fpnPathLen := fpnPathLen;
      base := Normalise(args);
      resamples, preprocessors, tails := map[], map[], map[];
      built := false;
    }

    function Lv(): Levels
      reads this
    {
      Levels(minLevel, maxLevel, minDepth)
    }

    function Tables(): FpnTables
      reads this
    {
      FpnTables(preprocessors, resamples, tails)
    }

    /** The state `build` leaves. */
    ghost predicate Planned()
      reads this
    {
      FpnBuilt(Lv(), fpnPathLen, Tables())
    }

    /** `get_raw_depths`: one depth per level, doubling, then reversed (descending). */
    method GetRawDepths(minimumDepth: int) returns (ds: seq<int>)
      ensures ds == Reversed(Schedule(minimumDepth, RangeLength(minLevel, maxLevel)))
    {
      var up := DoublingDepths(RangeLength(minLevel, maxLevel), minimumDepth);
      ds := Reversed(up);
    }

    /**
     * `build`: the level range is the min and max of the input keys and the
     * minimum depth is the channel count of the min level; `min` of no keys
     * raises, and nothing is changed then.
     */
    method Build(channels: map<int, int>) returns (ok: bool)
      modifies this
      ensures ok <==> channels.Keys != {}
      ensures !ok ==> unchanged(this)
      ensures ok ==> built && LevelsOf(channels, Lv()) && Planned()
      ensures ok ==> depths == Reversed(Schedule(minDepth, RangeLength(minLevel, maxLevel)))
    {
      var lv := ReadLevels(channels);
      if lv.None? {
        return false;
      }
      minLevel, maxLevel, minDepth := lv.value.lo, lv.value.hi, lv.value.minDepth;
      depths := GetRawDepths(minDepth);
      ReversedScheduleIsDepthAt(lv.value);
      var t := FpnBuildTables(lv.value, fpnPathLen, depths);
      preprocessors, resamples, tails := t.preprocessors, t.resamples, t.tails;
      assert Lv() == lv.value && Tables() == t;
      built := true;
      ok := true;
    }

    /** `call`: every level of the range has an output; a missing input level is None. */
    method Call(inputs: map<int, Expr>) returns (r: Option<map<int, Expr>>)
      requires Planned()
      ensures r.Some? <==> Covers(inputs, minLevel, maxLevel)
      ensures r.Some? ==> r.value == FpnOutputs(Tables(), minLevel, maxLevel, inputs)
    {
      r := FpnWalk(Tables(), minLevel, maxLevel, inputs);
    }
  }

  /** The routed top-down decoder (`YoloRoutedDecoder`). */
  class YoloRoutedDecoder {
    const pathProcessLen: int
    const maxLevelProcessLen: int
    const embedSpp: bool
    const base: BaseConfig
    var minLevel: int
    var maxLevel: int
    var minDepth: int
    var depths: seq<int>
    var resamples: map<int, Block>
    var preprocessors: map<int, Block>
    /** Keras' `built` flag: set by the first `build` that succeeds. */
    var built: bool

    /** `max_level_process_len` defaults to `path_process_len`. */
    constructor (pathProcessLen: int, maxLevelProcessLen: Option<int>, embedSpp: bool, args: BaseArgs)
      ensures this.pathProcessLen == pathProcessLen && this.embedSpp == embedSpp && base == Normalise(args)
      ensures this.maxLevelProcessLen == if maxLevelProcessLen.None? then pathProcessLen else maxLevelProcessLen.value
      ensures resamples == map[] && preprocessors == map[]
      ensures !built
    {
      this.pathProcessLen := pathProcessLen;
      this.maxLevelProcessLen := if maxLevelProcessLen.None? then pathProcessLen else maxLevelProcessLen.value;
      this.embedSpp := embedSpp;
      base := Normalise(args);
      resamples, preprocessors := map[], map[];
      built := false;
    }

    function Lv(): Levels
      reads this
    {
      Levels(minLevel, maxLevel, minDepth)
    }

    function Pc(): PathConfig
    {
      PathConfig(pathProcessLen, maxLevelProcessLen, embedSpp)
    }

    function Tables(): PathTables
      reads this
    {
      PathTables(preprocessors, resamples)
    }

    ghost predicate Planned()
      reads this
    {
      RoutedBuilt(Lv(), Pc(), Tables())
    }

    /** `get_raw_depths`: the same descending schedule as YoloFPN's. */
    method GetRawDepths(minimumDepth: int) returns (ds: seq<int>)
      ensures ds == Reversed(Schedule(minimumDepth, RangeLength(minLevel, maxLevel)))
    {
      var up := DoublingDepths(RangeLength(minLevel, maxLevel), minimumDepth);
      ds := Reversed(up);
    }

    method Build(channels: map<int, int>) returns (ok: bool)
      modifies this
      ensures ok <==> channels.Keys != {}
      ensures !ok ==> unchanged(this)
      ensures ok ==> built && LevelsOf(channels, Lv()) && Planned()
      ensures ok ==> depths == Reversed(Schedule(minDepth, RangeLength(minLevel, maxLevel)))
    {
      var lv := ReadLevels(channels);
      if lv.None? {
        return false;
      }
      minLevel, maxLevel, minDepth := lv.value.lo, lv.value.hi, lv.value.minDepth;
      depths := GetRawDepths(minDepth);
      ReversedScheduleIsDepthAt(lv.value);
      var t := RoutedBuildTables(lv.value, Pc(), depths);
      preprocessors, resamples := t.preprocessors, t.resamples;
      assert Lv() == lv.value && Tables() == t;
      built := true;
      ok := true;
    }

    /** `call`: each level emits its preprocessor's main output. */
    method Call(inputs: map<int, Expr>) returns (r: Option<map<int, Expr>>)
      requires Planned()
      ensures r.Some? <==> Covers(inputs, minLevel, maxLevel)
      ensures r.Some? ==> r.value == RoutedOutputs(Tables(), minLevel, maxLevel, inputs)
    {
      r := RoutedWalk(Tables(), minLevel, maxLevel, inputs);
    }
  }

  /** The bottom-up decoder (`YoloFPNDecoder`). */
  class YoloFPNDecoder {
    const pathProcessLen: int
    const maxLevelProcessLen: int
    const embedSpp: bool
    const base: BaseConfig
    var minLevel: int
    var maxLevel: int
    var minDepth: int
    var depths: seq<int>
    var resamples: map<int, Block>
    var preprocessors: map<int, Block>
    /** Keras' `built` flag: set by the first `build` that succeeds. */
    var built: bool

    /** `max_level_process_len` defaults to 1. */
    constructor (pathProcessLen: int, maxLevelProcessLen: Option<int>, embedSpp: bool, args: BaseArgs)
      ensures this.pathProcessLen == pathProcessLen && this.embedSpp == embedSpp && base == Normalise(args)
      ensures this.maxLevelProcessLen == if maxLevelProcessLen.None? then 1 else maxLevelProcessLen.value
      ensures resamples == map[] && preprocessors == map[]
      ensures !built
    {
      this.pathProcessLen := pathProcessLen;
      this.maxLevelProcessLen := if maxLevelProcessLen.None? then 1 else maxLevelProcessLen.value;
      this.embedSpp := embedSpp;
      base := Normalise(args);
      resamples, preprocessors := map[], map[];
      built := false;
    }

    function Lv(): Levels
      reads this
    {
      Levels(minLevel, maxLevel, minDepth)
    }

    function Pc(): PathConfig
    {
      PathConfig(pathProcessLen, maxLevelProcessLen, embedSpp)
    }

    function Tables(): PathTables
      reads this
    {
      PathTables(preprocessors, resamples)
    }

    ghost predicate Planned()
      reads this
    {
      PanBuilt(Lv(), Pc(), Tables())
    }

    /** `get_raw_depths` of this class: the doubling schedule NOT reversed (ascending). */
    method GetRawDepths(minimumDepth: int) returns (ds: seq<int>)
      ensures ds == Schedule(minimumDepth, RangeLength(minLevel, maxLevel))
    {
      ds := DoublingDepths(RangeLength(minLevel, maxLevel), minimumDepth);
    }

    method Build(channels: map<int, int>) returns (ok: bool)
      modifies this
      ensures ok <==> channels.Keys != {}
      ensures !ok ==> unchanged(this)
      ensures ok ==> built && LevelsOf(channels, Lv()) && Planned()
      ensures ok ==> depths == Schedule(minDepth, RangeLength(minLevel, maxLevel))
    {
      var lv := ReadLevels(channels);
      if lv.None? {
        return false;
      }
      minLevel, maxLevel, minDepth := lv.value.lo, lv.value.hi, lv.value.minDepth;
      depths := GetRawDepths(minDepth);
      ScheduleIsDepthAt(lv.value);
      var t := PanBuildTables(lv.value, Pc(), depths);
      preprocessors, resamples := t.preprocessors, t.resamples;
      assert Lv() == lv.value && Tables() == t;
      built := true;
      ok := true;
    }

    /** `call`: each level emits its preprocessor's main output. */
    method Call(inputs: map<int, Expr>) returns (r: Option<map<int, Expr>>)
      requires Planned()
      ensures r.Some? <==> Covers(inputs, minLevel, maxLevel)
      ensures r.Some? ==> r.value == PanOutputs(Tables(), minLevel, maxLevel, inputs)
    {
      r := PanWalk(Tables(), minLevel, maxLevel, inputs);
    }
  }

  // ---------------------------------------------------------------------------
  // YoloDecoder

  /** The arguments of `YoloDecoder(...)`. */
  datatype DecoderArgs = DecoderArgs(
    embedFpn: bool,
    fpnPathLen: int,
    pathProcessLen: int,
    maxLevelProcessLen: Option<int>,
    embedSpp: bool,
    base: BaseArgs)

  /** The dictionary `get_config` returns. */
  datatype DecoderConfig = DecoderConfig(
    embedFpn: bool,
    fpnPathLen: int,
    pathProcessLen: int,
    maxLevelProcessLen: Option<int>,
    embedSpp: bool,
    base: BaseConfig)

  /** What a YoloDecoder built from `args` reports as its configuration. */
  function Configure(args: DecoderArgs): DecoderConfig
  {
    DecoderConfig(args.embedFpn, args.fpnPathLen, args.pathProcessLen,
                  args.maxLevelProcessLen, args.embedSpp, Normalise(args.base))
  }

  /** `cls(**config)`: a configuration passed back as keyword arguments. */
  function ArgsOf(c: DecoderConfig): DecoderArgs
  {
    DecoderArgs(c.embedFpn, c.fpnPathLen, c.pathProcessLen, c.maxLevelProcessLen,
                c.embedSpp, BaseArgsOf(c.base))
  }

  /**
   * Rebuilding from a reported configuration reports it again; from raw
   * arguments, the only change is that a None activation reads "leaky".
   */
  lemma ConfigRoundTrip(c: DecoderConfig, args: DecoderArgs)
    ensures Configure(ArgsOf(c)) == c
    ensures Configure(ArgsOf(Configure(args))) == Configure(args)
    ensures Configure(args).base.activation == if args.base.activation.None? then "leaky" else args.base.activation.value
  {
  }

  /** The channel counts Keras reads off a model's outputs when it builds the next model. */
  function OutputChannels(outs: map<int, Expr>): map<int, int>
  {
    map l | l in outs && OutChannels(outs[l]).Some? :: OutChannels(outs[l]).value
  }

  /**
   * The channels the bottom-up decoder is built from when it follows an FPN:
   * exactly the FPN's levels, each with half the FPN depth of that level, so
   * the min level carries half the backbone's minimum depth.
   */
  lemma FpnChannelsForPan(ft: FpnTables, lv: Levels, pathLen: int, inputs: map<int, Expr>)
    requires FpnBuilt(lv, pathLen, ft) && Covers(inputs, lv.lo, lv.hi)
    ensures var c := OutputChannels(FpnOutputs(ft, lv.lo, lv.hi, inputs));
            && (forall l :: l in c <==> lv.lo <= l <= lv.hi)
            && (forall l :: lv.lo <= l <= lv.hi ==> c[l] == DepthAt(lv, l) / 2)
            && c[lv.lo] == PanLevelsAfterFpn(lv).minDepth
  {
    var c := OutputChannels(FpnOutputs(ft, lv.lo, lv.hi, inputs));
    forall l | lv.lo <= l <= lv.hi
      ensures l in c && c[l] == DepthAt(lv, l) / 2
    {
      FpnFeedsPan(ft, lv, pathLen, inputs, l);
    }
    FpnFeedsPan(ft, lv, pathLen, inputs, lv.lo);
  }

  /**
   * `self._fpn(inputs)`. Keras runs `build` on the input shapes only while
   * the FPN is not built yet; every later call keeps the level range and the
   * modules of that first build, whatever levels it is given.
   */
  method RunFpn(fpn: YoloFPN, inputs: map<int, Expr>, channels: map<int, int>)
    returns (mid: Option<map<int, Expr>>)
    requires forall l :: l in channels <==> l in inputs
    requires fpn.built ==> fpn.Planned()
    modifies fpn
    ensures fpn.built ==> fpn.Planned()
    ensures old(fpn.built) ==> unchanged(fpn)
    ensures !old(fpn.built) ==> (fpn.built <==> inputs.Keys != {})
    ensures !old(fpn.built) && fpn.built ==> LevelsOf(channels, fpn.Lv())
    ensures mid.Some? <==> fpn.built && Covers(inputs, fpn.minLevel, fpn.maxLevel)
    ensures mid.Some? ==> mid.value == FpnOutputs(fpn.Tables(), fpn.minLevel, fpn.maxLevel, inputs)
  {
    if !fpn.built {
      SameKeysEmpty(channels, inputs);
      var ok := fpn.Build(channels);
      if !ok {
        return None;
      }
    }
    mid := fpn.Call(inputs);
  }

  /**
   * `self._decoder(mid)` for the bottom-up decoder that follows an FPN:
   * `mid` has the levels `lo..hi` and its min level has `minDepth` channels.
   * A decoder that is not built yet is built from the shapes of `mid`; one
   * that is built already had these levels and this depth.
   */
  method RunPan(pan: YoloFPNDecoder, mid: map<int, Expr>, lo: int, hi: int, minDepth: int)
    returns (r: Option<map<int, Expr>>)
    requires lo <= hi && forall l :: l in mid <==> lo <= l <= hi
    requires forall l :: l in OutputChannels(mid) <==> lo <= l <= hi
    requires OutputChannels(mid)[lo] == minDepth
    requires pan.built ==> pan.Planned() && pan.Lv() == Levels(lo, hi, minDepth)
    modifies pan
    ensures old(pan.built) ==> unchanged(pan)
    ensures r.Some? && pan.built && pan.Planned()
    ensures pan.Lv() == Levels(lo, hi, minDepth)
    ensures r.value == PanOutputs(pan.Tables(), lo, hi, mid)
  {
    if !pan.built {
      var panChannels := OutputChannels(mid);
      assert lo in panChannels;
      var ok := pan.Build(panChannels);
      ExtremesOfRange(panChannels, lo, hi, pan.minLevel, pan.maxLevel);
    }
    assert Covers(mid, pan.minLevel, pan.maxLevel);
    r := pan.Call(mid);
  }

  /**
   * What Keras keeps between calls of an FPN followed by the bottom-up
   * decoder: a built model is planned, and the bottom-up decoder is only ever
   * built from the outputs of the FPN as it is built.
   */
  ghost predicate Composed(fpn: YoloFPN, pan: YoloFPNDecoder)
    reads fpn, pan
  {
    && (fpn.built ==> fpn.Planned())
    && (pan.built ==> fpn.built && pan.Planned() && pan.Lv() == PanLevelsAfterFpn(fpn.Lv()))
  }

  /**
   * `self._decoder(self._fpn(inputs))`: the FPN is built from the input
   * shapes on its first call, the bottom-up decoder from the FPN's output
   * shapes on its first call, and neither is built again.
   */
  method FpnThenPan(fpn: YoloFPN, pan: YoloFPNDecoder, inputs: map<int, Expr>, channels: map<int, int>)
    returns (r: Option<map<int, Expr>>)
    requires forall l :: l in channels <==> l in inputs
    requires Composed(fpn, pan)
    modifies fpn, pan
    ensures Composed(fpn, pan)
    ensures old(fpn.built) ==> unchanged(fpn)
    ensures old(pan.built) ==> unchanged(pan)
    ensures !old(fpn.built) ==> (fpn.built <==> inputs.Keys != {})
    ensures r.Some? <==> fpn.built && Covers(inputs, fpn.minLevel, fpn.maxLevel)
    ensures r.Some? ==>
              && pan.built
              && r.value == PanOutputs(pan.Tables(), fpn.minLevel, fpn.maxLevel,
                                       FpnOutputs(fpn.Tables(), fpn.minLevel, fpn.maxLevel, inputs))
  {
    var mid := RunFpn(fpn, inputs, channels);
    if mid.None? {
      return None;
    }
    var lv := fpn.Lv();
    FpnChannelsForPan(fpn.Tables(), lv, fpn.fpnPathLen, inputs);
    r := RunPan(pan, mid.value, lv.lo, lv.hi, PanLevelsAfterFpn(lv).minDepth);
  }

  /** `self._decoder(inputs)` for the routed decoder, built on its first call only. */
  method RoutedAlone(routed: YoloRoutedDecoder, inputs: map<int, Expr>, channels: map<int, int>)
    returns (r: Option<map<int, Expr>>)
    requires forall l :: l in channels <==> l in inputs
    requires routed.built ==> routed.Planned()
    modifies routed
    ensures routed.built ==> routed.Planned()
    ensures old(routed.built) ==> unchanged(routed)
    ensures !old(routed.built) ==> (routed.built <==> inputs.Keys != {})
    ensures r.Some? <==> routed.built && Covers(inputs, routed.minLevel, routed.maxLevel)
    ensures r.Some? ==> r.value == RoutedOutputs(routed.Tables(), routed.minLevel, routed.maxLevel, inputs)
  {
    if !routed.built {
      SameKeysEmpty(channels, inputs);
      var ok := routed.Build(channels);
      if !ok {
        return None;
      }
    }
    r := routed.Call(inputs);
  }

  /**
   * Once the FPN is built, a call that lacks one of the levels the first
   * call had fails (the source raises KeyError at `inputs[str(level - 1)]`),
   * and a call with more levels still yields only the first call's levels.
   */
  method FpnKeepsFirstBuild(fpn: YoloFPN, first: map<int, Expr>, firstChannels: map<int, int>,
                            later: map<int, Expr>, laterChannels: map<int, int>)
    returns (a: Option<map<int, Expr>>, b: Option<map<int, Expr>>)
    requires forall l :: l in firstChannels <==> l in first
    requires forall l :: l in laterChannels <==> l in later
    requires !fpn.built
    modifies fpn
    ensures a.Some? ==> forall l :: l in first ==> fpn.minLevel <= l <= fpn.maxLevel
    ensures a.Some? && (exists l :: l in first && l !in later) ==> b.None?
    ensures a.Some? && b.Some? ==> b.value.Keys == a.value.Keys
  {
    a := RunFpn(fpn, first, firstChannels);
    b := RunFpn(fpn, later, laterChannels);
  }

  /** The composed decoder (`YoloDecoder`). */
  class YoloDecoder {
    const embedFpn: bool
    const fpnPathLen: int
    const pathProcessLen: int
    const maxLevelProcessLen: Option<int>
    const embedSpp: bool
    const base: BaseConfig
    var fpn: YoloFPN?
    var pan: YoloFPNDecoder?
    var routed: YoloRoutedDecoder?

    constructor (args: DecoderArgs)
      ensures GetConfig() == Configure(args)
      ensures fpn == null && pan == null && routed == null
    {
      embedFpn := args.embedFpn;
      fpnPathLen := args.fpnPathLen;
      pathProcessLen := args.pathProcessLen;
      maxLevelProcessLen := args.maxLevelProcessLen;
      embedSpp := args.embedSpp;
      base := Normalise(args.base);
      fpn, pan, routed := null, null, null;
    }

    /** `get_config`. */
    function GetConfig(): DecoderConfig
    {
      DecoderConfig(embedFpn, fpnPathLen, pathProcessLen, maxLevelProcessLen, embedSpp, base)
    }

    /** `from_config`: a fresh decoder whose `get_config` is the given one. */
    static method FromConfig(c: DecoderConfig) returns (d: YoloDecoder)
      ensures fresh(d) && d.GetConfig() == c
      ensures d.fpn == null && d.pan == null && d.routed == null
    {
      ConfigRoundTrip(c, ArgsOf(c));
      d := new YoloDecoder(ArgsOf(c));
    }

    /** The `neck` property: the FPN when `embed_fpn`, None otherwise. */
    function Neck(): YoloFPN?
      reads this
    {
      fpn
    }

    /**
     * The sub-models `build` chose and the configuration each received: both
     * decoders get `path_process_len`, `max_level_process_len` (each with its
     * own default) and `embed_spp`, the FPN gets `fpn_path_len`, and every
     * sub-model gets the same base configuration.
     */
    ghost predicate Built()
      reads this, fpn, pan, routed
    {
      && (embedFpn ==> fpn != null && pan != null && routed == null)
      && (!embedFpn ==> fpn == null && pan == null && routed != null)
      && (embedFpn ==> fpn.fpnPathLen == fpnPathLen && fpn.base == base && pan.base == base)
      && (embedFpn ==> pan.Pc() == PathConfig(pathProcessLen, if maxLevelProcessLen.None? then 1 else maxLevelProcessLen.value, embedSpp))
      && (!embedFpn ==> routed.base == base)
      && (!embedFpn ==> routed.Pc() == PathConfig(pathProcessLen, if maxLevelProcessLen.None? then pathProcessLen else maxLevelProcessLen.value, embedSpp))
      && (embedFpn ==> Composed(fpn, pan))
      && (!embedFpn ==> (routed.built ==> routed.Planned()))
    }

    /**
     * `build`: with `embed_fpn`, an FPN followed by the bottom-up decoder;
     * otherwise the routed decoder alone and no neck.
     */
    method Build()
      modifies this
      ensures Built()
      ensures embedFpn ==> fresh(fpn) && fresh(pan)
      ensures !embedFpn ==> fresh(routed)
      ensures Neck() == fpn && (Neck() == null <==> !embedFpn)
    {
      if embedFpn {
        fpn := new YoloFPN(fpnPathLen, BaseArgsOf(base));
        pan := new YoloFPNDecoder(pathProcessLen, maxLevelProcessLen, embedSpp, BaseArgsOf(base));
        routed := null;
      } else {
        fpn := null;
        pan := null;
        routed := new YoloRoutedDecoder(pathProcessLen, maxLevelProcessLen, embedSpp, BaseArgsOf(base));
      }
    }

    /**
     * `call`, with Keras building each sub-model from the shapes of its first
     * call and keeping that build for every later call: `channels` holds the
     * last dimension of each input level, keyed like `inputs`. With
     * `embed_fpn` the FPN's outputs feed the bottom-up decoder, whose levels
     * are the FPN's and whose minimum depth is half the backbone's; otherwise
     * the routed decoder runs alone. None is an error raised on the way (no
     * input level on the first call, or a level of the built range missing).
     */
    method Call(inputs: map<int, Expr>, channels: map<int, int>) returns (r: Option<map<int, Expr>>)
      requires Built()
      requires forall l :: l in channels <==> l in inputs
      modifies fpn, pan, routed
      ensures Built()
      ensures embedFpn ==> (old(fpn.built) ==> unchanged(fpn)) && (old(pan.built) ==> unchanged(pan))
      ensures embedFpn && !old(fpn.built) ==> (fpn.built <==> inputs.Keys != {})
      ensures embedFpn ==> (r.Some? <==> fpn.built && Covers(inputs, fpn.minLevel, fpn.maxLevel))
      ensures embedFpn && r.Some? ==>
                && pan.built && pan.Lv() == PanLevelsAfterFpn(fpn.Lv())
                && r.value == PanOutputs(pan.Tables(), fpn.minLevel, fpn.maxLevel,
                                         FpnOutputs(fpn.Tables(), fpn.minLevel, fpn.maxLevel, inputs))
      ensures !embedFpn ==> (old(routed.built) ==> unchanged(routed))
      ensures !embedFpn && !old(routed.built) ==> (routed.built <==> inputs.Keys != {})
      ensures !embedFpn ==> (r.Some? <==> routed.built && Covers(inputs, routed.minLevel, routed.maxLevel))
      ensures !embedFpn && r.Some? ==>
                r.value == RoutedOutputs(routed.Tables(), routed.minLevel, routed.maxLevel, inputs)
    {
      if embedFpn {
        r := FpnThenPan(fpn, pan, inputs, channels);
      } else {
        r := RoutedAlone(routed, inputs, channels);
      }
    }
  }
}
