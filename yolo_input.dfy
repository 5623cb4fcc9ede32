/**
 * The label side of the YOLO data parser (yolo_input.py): the construction
 * of `Parser`, the grid builder `_build_grid` that overwrites the parser's own
 * mask dictionary, and the packaging of labels in `_parse_train_data`,
 * `_parse_eval_data` and `_postprocess_fn`.
 *
 * Images, pixel augmentation and the box, anchor and grid arithmetic of the
 * helper modules are outside the model: their results enter the methods as
 * parameters, and the grids are symbolic terms recording what the grid
 * builder was given.
 */
module YoloInput {
  import opened Wrappers
  import opened Arith
  import opened Tensors
  import opened MapFacts

  // ---------------------------------------------------------------------------
  // Construction

  /** The three floating-point types the parser casts labels to. */
  datatype DType = Float16 | BFloat16 | Float32

  /** The name a dtype is given by in the constructor's `dtype` argument. */
  function DTypeName(d: DType): string
  {
    match d
    case Float16 => "float16"
    case BFloat16 => "bfloat16"
    case Float32 => "float32"
  }

  /** The dtype check of the constructor: any other name raises. */
  function ParseDType(name: string): (r: Option<DType>)
    ensures r.Some? <==> name == "float16" || name == "bfloat16" || name == "float32"
    ensures r.Some? ==> DTypeName(r.value) == name
  {
    if name == "float16" then Some(Float16)
    else if name == "bfloat16" then Some(BFloat16)
    else if name == "float32" then Some(Float32)
    else None
  }

  /** Every dtype's name is accepted and maps back to that dtype. */
  lemma DTypeNameParses(d: DType)
    ensures ParseDType(DTypeName(d)) == Some(d)
  {
  }

  /** `(x // m) * m`: the image size rounded down to a multiple of `m`. */
  function RoundDown(x: int, m: int): (r: int)
    requires m > 0
    ensures r % m == 0
    ensures r <= x < r + m
  {
    DivExact(x / m, m);
    (x / m) * m
  }

  /** No multiple of `m` lies strictly between `RoundDown(x, m)` and `x`. */
  lemma RoundDownIsLargest(x: int, m: int, y: int)
    requires m > 0 && y % m == 0 && y <= x
    ensures y <= RoundDown(x, m)
  {
    var a, b := y / m, x / m;
    assert y == a * m;
    assert x < b * m + m;
    assert (b + 1) * m == b * m + m;
    assert a <= b by {
      if a > b {
        MulMono(b + 1, a, m);
      }
    }
    MulMono(a, b, m);
  }
  /** The constructor's arguments, with Python's None as `None`. */
  datatype ParserArgs = ParserArgs(
    imageW: int,
    imageH: Option<int>,
    numClasses: int,
    fixedSize: bool,
    jitterIm: Option<real>,
    jitterBoxes: Option<real>,
    letterBox: bool,
    useTieBreaker: bool,
    minLevel: int,
    maxLevel: nat,
    masks: Option<map<int, seq<int>>>,
    cutmix: bool,
    maxProcessSize: int,
    minProcessSize: int,
    maxNumInstances: nat,
    randomFlip: bool,
    pctRand: real,
    augRandSaturation: bool,
    augRandBrightness: bool,
    augRandZoom: bool,
    augRandHue: bool,
    anchors: Option<seq<seq<real>>>,
    seed: int,
    dtype: string)

  /** The keyword defaults of `Parser.__init__`. */
  function DefaultArgs(): ParserArgs
  {
    ParserArgs(416, Some(416), 80, false, Some(0.2), Some(0.005), false, true, 3, 5, None,
               true, 608, 320, 200, true, 0.5, true, true, true, true, None, 10, "float32")
  }

  /** Why construction fails. */
  datatype ParserError =
    | MissingMasks      // `masks.items()` on None
    | UnsupportedDType  // the explicit `raise` of the dtype check

  /**
   * The error construction ends in, if any. The mask dictionary is converted
   * before the dtype is checked, so a missing mask wins over a bad dtype.
   */
  function ConstructionError(args: ParserArgs): (r: Option<ParserError>)
    ensures r.None? <==> args.masks.Some? && ParseDType(args.dtype).Some?
    ensures r == Some(UnsupportedDType) <==> args.masks.Some? && ParseDType(args.dtype).None?
  {
    if args.masks.None? then Some(MissingMasks)
    else if ParseDType(args.dtype).None? then Some(UnsupportedDType)
    else None
  }

  /** With every default, construction fails; given masks, it succeeds. */
  lemma DefaultsNeedMasks(masks: map<int, seq<int>>)
    ensures ConstructionError(DefaultArgs()) == Some(MissingMasks)
    ensures ConstructionError(DefaultArgs().(masks := Some(masks))) == None
  {
    assert ParseDType("float32") == Some(Float32);
  }

  /** `width // 2**key`; a negative key divides by a fraction, which multiplies. */
  function GridDim(width: int, key: int): (r: int)
    ensures key >= 0 && width >= 0 ==> r * Pow2(key) <= width < (r + 1) * Pow2(key)
  {
    if key >= 0 then width / Pow2(key) else width * Pow2(-key)
  }

  /**
   * A width that is a multiple of `2**maxLevel` splits evenly at every level
   * up to `maxLevel`: the grid at `key` is `width / 2**maxLevel` cells times
   * `2**(maxLevel - key)`.
   */
  lemma GridDimExact(scale: int, maxLevel: nat, key: int)
    requires 0 <= key <= maxLevel
    ensures GridDim(scale * Pow2(maxLevel), key) == scale * Pow2(maxLevel - key)
    ensures GridDim(scale * Pow2(maxLevel), key) * Pow2(key) == scale * Pow2(maxLevel)
  {
    Pow2Add(maxLevel - key, key);
    var q := scale * Pow2(maxLevel - key);
    assert scale * Pow2(maxLevel) == q * Pow2(key);
    DivExact(q, Pow2(key));
  }

  // ---------------------------------------------------------------------------
  // Labels and grids

  /** The box layout of the `bbox` entry: corners `yxyx` or centre-size `xcycwh`. */
  datatype BoxFormat = Corners | Centre

  /** A box tensor together with the layout its last axis is in. */
  datatype Boxes = Boxes(format: BoxFormat, values: Tensor<real>)

  /**
   * The contents of a label dictionary; the keys a dictionary lacks are None.
   * `gridForm` refers to a grid dictionary, which the parser may share.
   */
  datatype Labels = Labels(
    sourceId: int,
    bbox: Boxes,
    classes: Tensor<real>,
    bestAnchors: Option<Tensor<real>>,
    area: Option<Tensor<real>>,
    isCrowd: Option<Tensor<int>>,
    width: int,
    height: int,
    numDetections: int,
    gridForm: Option<GridTable>)

  /**
   * An entry of the mask dictionary: first the anchor mask the parser was
   * built with, then whatever the grid builder returned, cast to the dtype.
   */
  datatype Grid =
    | AnchorMask(mask: seq<int>)
    | Grided(source: Labels, prior: Grid, dim: int, numClasses: int, tieBreaker: bool)
    | BatchGrided(source: Labels, prior: Grid, dim: int, numClasses: int, tieBreaker: bool)
    | Cast(grid: Grid, dtype: DType)

  /** A dictionary from pyramid level to grid, shared by reference. */
  class GridTable {
    var entries: map<int, Grid>

    /** `{key: tf.convert_to_tensor(value) for key, value in masks.items()}`. */
    constructor(masks: map<int, seq<int>>)
      ensures entries == map k | k in masks :: AnchorMask(masks[k])
    {
      entries := map k | k in masks :: AnchorMask(masks[k]);
    }
  }

  /** Everything one call of the grid builder passes besides the key and its mask. */
  datatype GridRequest = GridRequest(
    source: Labels, width: int, batch: bool, numClasses: int, tieBreaker: bool, dtype: DType)

  /** The grid a call stores at `key` when the entry held `prior` before it. */
  function GridAt(req: GridRequest, key: int, prior: Grid): Grid
  {
    var dim := GridDim(req.width, key);
    if req.batch then Cast(BatchGrided(req.source, prior, dim, req.numClasses, req.tieBreaker), req.dtype)
    else Cast(Grided(req.source, prior, dim, req.numClasses, req.tieBreaker), req.dtype)
  }

  /** The mask dictionary after one call: every key rebuilt from its own previous entry. */
  function Regridded(prior: map<int, Grid>, req: GridRequest): map<int, Grid>
  {
    map k | k in prior :: GridAt(req, k, prior[k])
  }

  /** The grid handed to the builder when `g` was made, if a builder made it. */
  function BuilderInput(g: Grid): Option<Grid>
  {
    match g
    case AnchorMask(_) => None
    case Grided(_, prior, _, _, _) => Some(prior)
    case BatchGrided(_, prior, _, _, _) => Some(prior)
    case Cast(inner, _) => BuilderInput(inner)
  }

  /** How many grid-builder calls are nested in `g`. */
  function Builds(g: Grid): nat
  {
    match g
    case AnchorMask(_) => 0
    case Grided(_, prior, _, _, _) => 1 + Builds(prior)
    case BatchGrided(_, prior, _, _, _) => 1 + Builds(prior)
    case Cast(inner, _) => Builds(inner)
  }

  /** The anchor mask at the bottom of a chain of builds. */
  function MaskOf(g: Grid): seq<int>
  {
    match g
    case AnchorMask(m) => m
    case Grided(_, prior, _, _, _) => MaskOf(prior)
    case BatchGrided(_, prior, _, _, _) => MaskOf(prior)
    case Cast(inner, _) => MaskOf(inner)
  }

  /**
   * One call keeps the key set, gives every key the grid dimension
   * `width // 2**key`, and hands the builder the entry's previous value:
   * the anchor mask only while no call has overwritten it.
   */
  lemma RegriddedShape(prior: map<int, Grid>, req: GridRequest)
    ensures var r := Regridded(prior, req);
            && (forall k :: k in r <==> k in prior)
            && forall k :: k in r ==>
                 && r[k].Cast? && r[k].dtype == req.dtype
                 && (r[k].grid.Grided? || r[k].grid.BatchGrided?)
                 && (r[k].grid.BatchGrided? <==> req.batch)
                 && r[k].grid.dim == GridDim(req.width, k)
                 && BuilderInput(r[k]) == Some(prior[k])
                 && Builds(r[k]) == Builds(prior[k]) + 1
                 && MaskOf(r[k]) == MaskOf(prior[k])
  {
  }

  /** The mask dictionary after a series of calls, oldest first. */
  function RegriddedAll(prior: map<int, Grid>, reqs: seq<GridRequest>): map<int, Grid>
    decreases |reqs|
  {
    if reqs == [] then prior else Regridded(RegriddedAll(prior, reqs[..|reqs| - 1]), reqs[|reqs| - 1])
  }

  /**
   * Because the builder's result overwrites the mask it was given, after `n`
   * calls every entry nests `n` builds over the original anchor mask, and
   * only the first call saw the mask itself.
   */
  lemma {:induction false} RegriddedAllNests(prior: map<int, Grid>, reqs: seq<GridRequest>)
    ensures var r := RegriddedAll(prior, reqs);
            && (forall k :: k in r <==> k in prior)
            && forall k :: k in r ==>
                 Builds(r[k]) == Builds(prior[k]) + |reqs| && MaskOf(r[k]) == MaskOf(prior[k])
    decreases |reqs|
  {
    if reqs != [] {
      var before := RegriddedAll(prior, reqs[..|reqs| - 1]);
      RegriddedAllNests(prior, reqs[..|reqs| - 1]);
      RegriddedShape(before, reqs[|reqs| - 1]);
    }
  }

  /** A label dictionary that a method updates in place. */
  class LabelDict {
    var contents: Labels

    constructor(contents: Labels)
      ensures this.contents == contents
    {
      this.contents := contents;
    }
  }

  // ---------------------------------------------------------------------------
  // Inputs produced by code outside the model

  /**
   * What the augmentation steps of `_parse_train_data` hand to the label
   * packaging: boxes `[count, 4]` (corner layout), classes `[count]`, and the
   * image width and height read before the final resize.
   */
  datatype Augmented = Augmented(
    sourceId: int, boxes: Tensor<real>, classes: Tensor<real>, count: nat, width: int, height: int)

  ghost predicate AugmentedShapes(a: Augmented)
  {
    HasShape(a.boxes, [a.count, 4]) && HasShape(a.classes, [a.count])
  }

  /**
   * The decoded example `_parse_eval_data` reads: boxes after the aspect-ratio
   * fit, and classes, areas and crowd flags, one per instance.
   */
  datatype EvalInput = EvalInput(
    sourceId: int, boxes: Tensor<real>, classes: Tensor<real>, area: Tensor<real>,
    isCrowd: Tensor<int>, count: nat, width: int, height: int)

  ghost predicate EvalShapes(e: EvalInput)
  {
    && HasShape(e.boxes, [e.count, 4]) && HasShape(e.classes, [e.count])
    && HasShape(e.area, [e.count]) && HasShape(e.isCrowd, [e.count])
  }

  /** What the batch cutmix returns: boxes `[batch, count, 4]` and classes `[batch, count]`. */
  datatype Mixed = Mixed(boxes: Tensor<real>, classes: Tensor<real>, count: nat)

  /**
   * The fixed-size padding of the detection library (`clip_or_pad_to_fixed_size`),
   * which acts on the first axis like `pad_max_instances` with `pad_axis = 0`.
   */
  function ClipOrPad<T>(t: Tensor<T>, s: seq<nat>, n: nat, fill: T): (r: Tensor<T>)
    requires HasShape(t, s) && |s| >= 1
    ensures HasShape(r, s[0 := n])
    ensures PaddedTo(r, t, n, fill)
  {
    PadAlongLeading(t, s, n, fill);
    PadAlong(t, s, 0, n, fill)
  }

  /** Pads axis 1 of a batch: each sample is cut or filled to `n` instances. */
  function PadEachSample<T>(t: Tensor<T>, s: seq<nat>, n: nat, fill: T, padAxis: int): (r: Tensor<T>)
    requires HasShape(t, s) && |s| >= 2 && NormaliseAxis(|s|, padAxis) == 1
    ensures HasShape(r, s[1 := n])
    ensures r.Stack? && t.Stack? && |r.items| == |t.items|
    ensures forall b :: 0 <= b < |t.items| ==> PaddedTo(r.items[b], t.items[b], n, fill)
  {
    PadMaxInstancesPerRow(t, s, n, fill, padAxis);
    var r := PadMaxInstances(t, s, n, fill, padAxis).value;
    forall b | 0 <= b < |t.items|
      ensures PaddedTo(r.items[b], t.items[b], n, fill)
    {
      PadAlongLeading(t.items[b], s[1..], n, fill);
    }
    r
  }

  /** Pads axis 0 with `pad_max_instances(value, n, fill)`. */
  function PadInstances<T>(t: Tensor<T>, s: seq<nat>, n: nat, fill: T): (r: Tensor<T>)
    requires HasShape(t, s) && |s| >= 1
    ensures HasShape(r, s[0 := n])
    ensures PaddedTo(r, t, n, fill)
  {
    PadMaxInstancesLeading(t, s, n, fill, 0);
    PadAlongLeading(t, s, n, fill);
    PadMaxInstances(t, s, n, fill, 0).value
  }

  /** The down-scaling factor `2**max_level` is never zero. */
  type Positive = n: int | n > 0 witness 1

  /** The single post-processing stage `postprocess_fn` may hand out. */
  datatype Postprocessor = BatchPostprocess

  // ---------------------------------------------------------------------------
  // The parser

  class Parser {
    const netDownScale: Positive
    ghost const maxLevel: nat
    const numClasses: int
    const imageW: int
    const imageH: int
    const maxProcessSize: int
    const minProcessSize: int
    const anchors: Option<seq<seq<real>>>
    const masks: GridTable
    const useTieBreaker: bool
    const jitterIm: real
    const jitterBoxes: real
    const pctRand: real
    const maxNumInstances: nat
    const randomFlip: bool
    const letterBox: bool
    const augRandSaturation: bool
    const augRandBrightness: bool
    const augRandZoom: bool
    const augRandHue: bool
    const seed: int
    const cutmix: bool
    const fixedSize: bool
    const dtype: DType

    /** The image sizes are whole multiples of the network's down-scaling `2**max_level`. */
    ghost predicate Valid()
    {
      && netDownScale == Pow2(maxLevel)
      && imageW % netDownScale == 0
      && imageH % netDownScale == 0
    }

    /** The constants `__init__` stores for `args`. */
    ghost predicate Configured(args: ParserArgs)
    {
      && netDownScale == Pow2(args.maxLevel)
      && maxLevel == args.maxLevel
      && numClasses == args.numClasses
      && imageW == RoundDown(args.imageW, netDownScale)
      && imageH == (if args.imageH.None? then imageW else RoundDown(args.imageH.value, netDownScale))
      && maxProcessSize == args.maxProcessSize && minProcessSize == args.minProcessSize
      && anchors == args.anchors
      && useTieBreaker == args.useTieBreaker
      && jitterIm == (if args.jitterIm.None? then 0.0 else args.jitterIm.value)
      && jitterBoxes == (if args.jitterBoxes.None? then 0.0 else args.jitterBoxes.value)
      && pctRand == args.pctRand && maxNumInstances == args.maxNumInstances
      && randomFlip == args.randomFlip && letterBox == args.letterBox
      && augRandSaturation == args.augRandSaturation && augRandBrightness == args.augRandBrightness
      && augRandZoom == args.augRandZoom && augRandHue == args.augRandHue
      && seed == args.seed && cutmix == args.cutmix && fixedSize == args.fixedSize
      && Some(dtype) == ParseDType(args.dtype)
    }

    /** `__init__` past its two failure points. */
    constructor(args: ParserArgs)
      requires ConstructionError(args).None?
      ensures Configured(args) && Valid()
      ensures fresh(masks)
      ensures masks.entries == map k | k in args.masks.value :: AnchorMask(args.masks.value[k])
    {
      var nds := Pow2(args.maxLevel);
      netDownScale := nds;
      maxLevel := args.maxLevel;
      numClasses := args.numClasses;
      var w := RoundDown(args.imageW, nds);
      imageW := w;
      imageH := if args.imageH.None? then w else RoundDown(args.imageH.value, nds);
      maxProcessSize := args.maxProcessSize;
      minProcessSize := args.minProcessSize;
      anchors := args.anchors;
      masks := new GridTable(args.masks.value);
      useTieBreaker := args.useTieBreaker;
      jitterIm := if args.jitterIm.None? then 0.0 else args.jitterIm.value;
      jitterBoxes := if args.jitterBoxes.None? then 0.0 else args.jitterBoxes.value;
      pctRand := args.pctRand;
      maxNumInstances := args.maxNumInstances;
      randomFlip := args.randomFlip;
      letterBox := args.letterBox;
      augRandSaturation := args.augRandSaturation;
      augRandBrightness := args.augRandBrightness;
      augRandZoom := args.augRandZoom;
      augRandHue := args.augRandHue;
      seed := args.seed;
      cutmix := args.cutmix;
      fixedSize := args.fixedSize;
      dtype := ParseDType(args.dtype).value;
    }

    /** `Parser(**args)`: a parser, or the error the constructor raises. */
    static method Create(args: ParserArgs) returns (r: Result<Parser, ParserError>)
      ensures r.Err? <==> ConstructionError(args).Some?
      ensures r.Err? ==> r.error == ConstructionError(args).value
      ensures r.Ok? ==> fresh(r.value) && fresh(r.value.masks) && r.value.Configured(args) && r.value.Valid()
    {
      var e := ConstructionError(args);
      if e.Some? {
        return Err(e.value);
      }
      var p := new Parser(args);
      return Ok(p);
    }

    /**
     * `_build_grid`: `mask` is `self._masks` itself, so every key's entry is
     * overwritten in place by the grid built from that entry, and the
     * dictionary returned is the parser's own.
     */
    method BuildGrid(rawTrue: Labels, width: int, batch: bool, useTieBreaker: bool) returns (mask: GridTable)
      modifies masks
      ensures mask == masks
      ensures masks.entries == Regridded(old(masks.entries), GridRequest(rawTrue, width, batch, numClasses, useTieBreaker, dtype))
    {
      mask := masks;
      ghost var prior := masks.entries;
      ghost var req := GridRequest(rawTrue, width, batch, numClasses, useTieBreaker, dtype);
      var keys := masks.entries.Keys;
      while keys != {}
        invariant keys <= prior.Keys
        invariant forall k :: k in masks.entries <==> k in prior
        invariant forall k :: k in prior ==>
                    masks.entries[k] == if k in keys then prior[k] else GridAt(req, k, prior[k])
        decreases keys
      {
        NonEmptyHasMember(keys);
        var key :| key in keys;
        if !batch {
          mask.entries := mask.entries[key := Grided(rawTrue, masks.entries[key], GridDim(width, key), numClasses, useTieBreaker)];
        } else {
          mask.entries := mask.entries[key := BatchGrided(rawTrue, masks.entries[key], GridDim(width, key), numClasses, useTieBreaker)];
        }
        mask.entries := mask.entries[key := Cast(mask.entries[key], dtype)];
        keys := keys - {key};
      }
      SameMap(masks.entries, Regridded(prior, req));
    }

    /** Training builds the grid per sample exactly for fixed-size inputs without cutmix. */
    predicate TrainBuildsGrid()
    {
      fixedSize && !cutmix
    }

    /** `postprocess_fn(is_training)`: the batch stage, or None. */
    function PostprocessFn(isTraining: bool): (r: Option<Postprocessor>)
      ensures r.Some? <==> isTraining && (!fixedSize || cutmix)
    {
      if isTraining then (if !fixedSize || cutmix then Some(BatchPostprocess) else None) else None
    }

    /** In training exactly one of the sample parse and the batch stage builds the grid. */
    lemma GridBuiltOnce()
      ensures TrainBuildsGrid() <==> PostprocessFn(true).None?
      ensures PostprocessFn(false).None?
    {
    }

    /**
     * The multi-scale factor of `_parse_train_data`: `image_w // nds`, or a
     * draw from `[10, 15)` for fixed-size inputs when the scale draw fires.
     */
    function TrainRandScale(fires: bool, draw: int): (r: int)
      requires 10 <= draw < 15
      ensures fixedSize && fires ==> 10 <= r < 15
      ensures !(fixedSize && fires) ==> r == imageW / netDownScale
    {
      if fixedSize && fires then draw else imageW / netDownScale
    }

    /**
     * The multi-scale factor of `_postprocess_fn`: `image_w // nds`, or a
     * draw from `[10, 21)` for inputs that are not fixed-size when the draw fires.
     */
    function PostRandScale(fires: bool, draw: int): (r: int)
      requires 10 <= draw < 21
      ensures r == imageW / netDownScale || (!fixedSize && 10 <= r < 21)
      ensures fixedSize || !fires ==> r == imageW / netDownScale
    {
      if !fixedSize && fires then draw else imageW / netDownScale
    }

    /** The square size the batch is resized to and gridded at. */
    function PostWidth(fires: bool, draw: int): int
      requires 10 <= draw < 21
    {
      PostRandScale(fires, draw) * netDownScale
    }

    /**
     * The batch size is a multiple of `2**max_level`, is `image_w` itself
     * when no rescale is drawn, and divides evenly into the grid at every
     * level up to `max_level`.
     */
    lemma PostWidthSplitsEvenly(fires: bool, draw: int, key: int)
      requires Valid() && 10 <= draw < 21
      requires 0 <= key <= maxLevel
      ensures PostWidth(fires, draw) % netDownScale == 0
      ensures fixedSize || !fires ==> PostWidth(fires, draw) == imageW
      ensures GridDim(PostWidth(fires, draw), key) * Pow2(key) == PostWidth(fires, draw)
    {
      var s := PostRandScale(fires, draw);
      DivExact(s, netDownScale);
      GridDimExact(s, maxLevel, key);
    }

    /** The label dictionary `_parse_train_data` passes to the grid builder. */
    ghost function TrainSource(aug: Augmented, matched: Tensor<real>, anchorCols: nat): Labels
      requires AugmentedShapes(aug) && HasShape(matched, [aug.count, anchorCols])
    {
      Labels(aug.sourceId, Boxes(Centre, ClipOrPad(aug.boxes, [aug.count, 4], maxNumInstances, 0.0)),
             ClipOrPad(aug.classes, [aug.count], maxNumInstances, -1.0),
             Some(ClipOrPad(matched, [aug.count, anchorCols], maxNumInstances, 0.0)),
             None, None, aug.width, aug.height, aug.count, None)
    }

    /**
     * The label packaging of `_parse_train_data` after augmentation. `matched`
     * is the anchor matcher's result for the boxes, one row per instance.
     */
    method ParseTrainData(aug: Augmented, matched: Tensor<real>, anchorCols: nat) returns (labels: Labels)
      requires AugmentedShapes(aug) && HasShape(matched, [aug.count, anchorCols])
      modifies masks
      ensures labels.sourceId == aug.sourceId && labels.width == aug.width && labels.height == aug.height
      ensures labels.numDetections == |aug.classes.items|
      ensures HasShape(labels.classes, [maxNumInstances]) && PaddedTo(labels.classes, aug.classes, maxNumInstances, -1.0)
      ensures HasShape(labels.bbox.values, [maxNumInstances, 4]) && PaddedTo(labels.bbox.values, aug.boxes, maxNumInstances, 0.0)
      ensures labels.area.None? && labels.isCrowd.None?
      ensures labels.bestAnchors.Some? <==> TrainBuildsGrid()
      ensures labels.bestAnchors.Some? ==>
                HasShape(labels.bestAnchors.value, [maxNumInstances, anchorCols])
                && PaddedTo(labels.bestAnchors.value, matched, maxNumInstances, 0.0)
      ensures labels.gridForm.Some? <==> TrainBuildsGrid()
      ensures labels.bbox.format == (if TrainBuildsGrid() then Corners else Centre)
      ensures TrainBuildsGrid() ==>
                && labels.gridForm == Some(masks)
                && masks.entries == Regridded(old(masks.entries),
                     GridRequest(TrainSource(aug, matched, anchorCols), imageW, false, numClasses, useTieBreaker, dtype))
      ensures !TrainBuildsGrid() ==> masks.entries == old(masks.entries)
    {
      var numDets := aug.count;
      var classes := ClipOrPad(aug.classes, [aug.count], maxNumInstances, -1.0);
      if fixedSize && !cutmix {
        var bestAnchors := ClipOrPad(matched, [aug.count, anchorCols], maxNumInstances, 0.0);
        var boxes := ClipOrPad(aug.boxes, [aug.count, 4], maxNumInstances, 0.0);
        labels := Labels(aug.sourceId, Boxes(Centre, boxes), classes, Some(bestAnchors),
                         None, None, aug.width, aug.height, numDets, None);
        var grid := BuildGrid(labels, imageW, false, useTieBreaker);
        labels := labels.(gridForm := Some(grid));
        labels := labels.(bbox := labels.bbox.(format := Corners));
      } else {
        var boxes := ClipOrPad(aug.boxes, [aug.count, 4], maxNumInstances, 0.0);
        labels := Labels(aug.sourceId, Boxes(Centre, boxes), classes, None,
                         None, None, aug.width, aug.height, numDets, None);
      }
    }

    /** The label dictionary `_parse_eval_data` passes to the grid builder. */
    ghost function EvalSource(e: EvalInput, matched: Tensor<real>, anchorCols: nat): Labels
      requires EvalShapes(e) && HasShape(matched, [e.count, anchorCols])
    {
      Labels(e.sourceId, Boxes(Centre, PadInstances(e.boxes, [e.count, 4], maxNumInstances, 0.0)),
             PadInstances(e.classes, [e.count], maxNumInstances, -1.0),
             Some(PadInstances(matched, [e.count, anchorCols], maxNumInstances, 0.0)),
             Some(PadInstances(e.area, [e.count], maxNumInstances, 0.0)),
             Some(PadInstances(e.isCrowd, [e.count], maxNumInstances, 0)),
             e.width, e.height, e.count, None)
    }

    /**
     * The label packaging of `_parse_eval_data`: every instance field padded
     * to `max_num_instances`, and the grid always built per sample.
     */
    method ParseEvalData(e: EvalInput, matched: Tensor<real>, anchorCols: nat) returns (labels: Labels)
      requires EvalShapes(e) && HasShape(matched, [e.count, anchorCols])
      modifies masks
      ensures labels.sourceId == e.sourceId && labels.width == e.width && labels.height == e.height
      ensures labels.numDetections == |e.classes.items|
      ensures HasShape(labels.bbox.values, [maxNumInstances, 4]) && PaddedTo(labels.bbox.values, e.boxes, maxNumInstances, 0.0)
      ensures HasShape(labels.classes, [maxNumInstances]) && PaddedTo(labels.classes, e.classes, maxNumInstances, -1.0)
      ensures labels.bestAnchors.Some? && PaddedTo(labels.bestAnchors.value, matched, maxNumInstances, 0.0)
      ensures labels.area.Some? && PaddedTo(labels.area.value, e.area, maxNumInstances, 0.0)
      ensures labels.isCrowd.Some? && PaddedTo(labels.isCrowd.value, e.isCrowd, maxNumInstances, 0)
      ensures labels.bbox.format == Corners
      ensures labels.gridForm == Some(masks)
      ensures masks.entries == Regridded(old(masks.entries),
                GridRequest(EvalSource(e, matched, anchorCols), imageW, false, numClasses, useTieBreaker, dtype))
    {
      var boxes := PadInstances(e.boxes, [e.count, 4], maxNumInstances, 0.0);
      var classes := PadInstances(e.classes, [e.count], maxNumInstances, -1.0);
      var bestAnchors := PadInstances(matched, [e.count, anchorCols], maxNumInstances, 0.0);
      var area := PadInstances(e.area, [e.count], maxNumInstances, 0.0);
      var isCrowd := PadInstances(e.isCrowd, [e.count], maxNumInstances, 0);
      labels := Labels(e.sourceId, Boxes(Centre, boxes), classes, Some(bestAnchors), Some(area), Some(isCrowd),
                       e.width, e.height, e.count, None);
      var grid := BuildGrid(labels, imageW, false, useTieBreaker);
      labels := labels.(gridForm := Some(grid));
      labels := labels.(bbox := labels.bbox.(format := Corners));
    }

    /**
     * The label dictionary `_postprocess_fn` hands to the grid builder: with
     * cutmix on a non-empty batch, the mixed boxes and classes cut or filled
     * to `max_num_instances` per sample; then the matched anchors padded the
     * same way. `num_detections` keeps the count from before the mix.
     */
    function BatchSource(o: Labels, batchSize: nat, mixed: Mixed, matched: Tensor<real>, rows: nat, anchorCols: nat): (r: Labels)
      requires cutmix && batchSize >= 1 ==>
                 HasShape(mixed.boxes, [batchSize, mixed.count, 4]) && HasShape(mixed.classes, [batchSize, mixed.count])
      requires HasShape(matched, [batchSize, rows, anchorCols])
      ensures && r.sourceId == o.sourceId && r.width == o.width && r.height == o.height
              && r.area == o.area && r.isCrowd == o.isCrowd && r.gridForm == o.gridForm
              && r.numDetections == o.numDetections
      ensures cutmix && batchSize >= 1 ==>
                && r.bbox.format == Centre
                && HasShape(r.bbox.values, [batchSize, maxNumInstances, 4])
                && HasShape(r.classes, [batchSize, maxNumInstances])
                && (forall b :: 0 <= b < batchSize ==>
                      && PaddedTo(r.bbox.values.items[b], mixed.boxes.items[b], maxNumInstances, 0.0)
                      && PaddedTo(r.classes.items[b], mixed.classes.items[b], maxNumInstances, -1.0))
      ensures !(cutmix && batchSize >= 1) ==> r.bbox == o.bbox && r.classes == o.classes
      ensures r.bestAnchors.Some? && HasShape(r.bestAnchors.value, [batchSize, maxNumInstances, anchorCols])
      ensures forall b :: 0 <= b < batchSize ==> PaddedTo(r.bestAnchors.value.items[b], matched.items[b], maxNumInstances, 0.0)
    {
      var mixedIn :=
        if cutmix && batchSize >= 1 then
          o.(bbox := Boxes(Centre, PadEachSample(mixed.boxes, [batchSize, mixed.count, 4], maxNumInstances, 0.0, -2)),
             classes := PadEachSample(mixed.classes, [batchSize, mixed.count], maxNumInstances, -1.0, -1))
        else o;
      mixedIn.(bestAnchors := Some(PadEachSample(matched, [batchSize, rows, anchorCols], maxNumInstances, 0.0, -2)))
    }

    /**
     * `_postprocess_fn` on a batch of `batchSize` samples, updating `dict`
     * in place. `mixed` is what the batch cutmix returns, `fires`/`draw` the
     * scale draw, and `matched` the batch anchor matcher's result
     * `[batchSize, rows, anchorCols]`. The grid is built at the drawn width,
     * the stored `width` entry is left as it was, and the boxes leave in the
     * corner layout.
     */
    method Postprocess(dict: LabelDict, batchSize: nat, mixed: Mixed, fires: bool, draw: int,
                       matched: Tensor<real>, rows: nat, anchorCols: nat) returns (out: LabelDict)
      requires 10 <= draw < 21
      requires cutmix && batchSize >= 1 ==>
                 HasShape(mixed.boxes, [batchSize, mixed.count, 4]) && HasShape(mixed.classes, [batchSize, mixed.count])
      requires HasShape(matched, [batchSize, rows, anchorCols])
      modifies dict, masks
      ensures out == dict
      ensures var r := BatchSource(old(dict.contents), batchSize, mixed, matched, rows, anchorCols);
              && dict.contents == r.(gridForm := Some(masks), bbox := r.bbox.(format := Corners))
              && masks.entries == Regridded(old(masks.entries),
                                            GridRequest(r, PostWidth(fires, draw), true, numClasses, useTieBreaker, dtype))
    {
      if cutmix && batchSize >= 1 {
        var boxes := PadEachSample(mixed.boxes, [batchSize, mixed.count, 4], maxNumInstances, 0.0, -2);
        var classes := PadEachSample(mixed.classes, [batchSize, mixed.count], maxNumInstances, -1.0, -1);
        dict.contents := dict.contents.(bbox := Boxes(Centre, boxes), classes := classes);
      }
      var randscale := PostRandScale(fires, draw);
      var width := randscale * netDownScale;
      var bestAnchors := PadEachSample(matched, [batchSize, rows, anchorCols], maxNumInstances, 0.0, -2);
      dict.contents := dict.contents.(bestAnchors := Some(bestAnchors));
      var grid := BuildGrid(dict.contents, width, true, useTieBreaker);
      dict.contents := dict.contents.(gridForm := Some(grid));
      dict.contents := dict.contents.(bbox := dict.contents.bbox.(format := Corners));
      out := dict;
    }
  }
}
