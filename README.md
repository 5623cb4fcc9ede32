# YOLO label packaging, decoder routing and anchor-box codec in Dafny

This project models three pieces of a TensorFlow YOLO implementation and
proves properties of them.

- **The detection data parser** (`yolo/dataloaders/yolo_input.py`):
  - `pad_max_instances`, the rule that cuts or pads every instance field to
    `max_num_instances`;
  - the constructor's image-size rounding and dtype check;
  - `_build_grid`, which writes every grid back into the parser's own mask
    dictionary (`mask` is `self._masks`, not a copy);
  - the label packaging of the training, evaluation and batch
    post-processing paths, and the choice between per-sample and batch grid
    building.
- **The dilated decoders** (`yolo/modeling/decoders/dilated_decoder.py`):
  - the depth schedules (`get_raw_depths`);
  - the per-level module dictionaries each `build` fills;
  - the top-down or bottom-up walk each `call` makes over the level range;
  - the `YoloDecoder` composition and its `get_config`/`from_config` pair.

  Keras blocks are opaque symbols (`Block`), and feature maps are expression
  trees over them (`Expr`), so routing, key sets, channel counts and "level
  `l` only reads levels `>= l` (or `<= l`)" can be stated exactly.
- **The model configuration** (`yolo/configs/yolo.py`):
  - the `boxes` getter, which parses box strings such as `"12, 16"` or
    `"(12, 16)"`;
  - the `boxes` setter and `set_boxes`, which store each box as
    `str(list(v))[1:-1]`;
  - `input_size` and `as_dict`.

The modules are:

- `common.dfy` holds shared helpers:
  - `Wrappers`: `Option` and `Result`;
  - `Arith`: powers of two and exact division;
  - `MapFacts`: set and map membership facts.
- `tensors.dfy` (`Tensors`): rectangular tensors with their shapes, `tf.fill`,
  and padding along an axis.
- `yolo_input.dfy` (`YoloInput`): the parser. `Parser` is a class whose
  constants are the fields `__init__` stores. Its `masks` is a `GridTable`
  object, and every method that builds a grid updates that object in place.
  `LabelDict` is the label dictionary that `_postprocess_fn` updates in place.
- `decoder_plan.dfy` (`DecoderPlan`): specification functions for each
  decoder:
  - what `build` puts at each level;
  - what `call` computes at each level;
  - dependency lemmas about those outputs.
- `dilated_decoder.dfy` (`DilatedDecoder`): classes `YoloFPN`,
  `YoloRoutedDecoder`, `YoloFPNDecoder` and `YoloDecoder`. Their loops are
  proved against the functions of `DecoderPlan`.
- `yolo_config.dfy` (`YoloConfig`): the box codec as functions, plus the
  `ModelConfig` class whose getter and setters are loops proved against them.

Pyramid levels are integers (the source keys its dictionaries by `str(level)`
and converts with `int(key)`). Python exceptions are `None` or `Err` results.

## Model

| member | source | states |
|---|---|---|
| Tensors.Fill | yolo/dataloaders/yolo_input.py:27 | the fill tensor has the requested shape and every entry is the fill value |
| Tensors.PadSeq | yolo/dataloaders/yolo_input.py:22-28 | exactly `n` entries; the first `min(n, len)` are the input's, in order; the rest are the fill value; pure truncation when `len >= n` |
| Tensors.PadSeqIdempotent | yolo/dataloaders/yolo_input.py:22-28 | padding an already padded sequence to the same size changes nothing |
| Tensors.PadAlong | yolo/dataloaders/yolo_input.py:21-28 | padding along an axis sets that dimension to `n` and leaves every other dimension unchanged |
| Tensors.PadAlongLeading | yolo/dataloaders/yolo_input.py:22-28 | along axis 0 the leading entries are kept in order, the rest are all fill, and `len >= n` is pure truncation |
| Tensors.NormaliseAxis | yolo/dataloaders/yolo_input.py:19-20 | a non-negative axis is kept; a negative one becomes `rank + pad_axis` |
| Tensors.PadAxis | yolo/dataloaders/yolo_input.py:19-28 | the padded axis: the normalised axis when it is in `[0, rank)`, `rank + axis` once more when it is in `[-rank, -2]` (TensorFlow wraps a negative index again), and an error for `-1` and every other axis |
| Tensors.PadMaxInstances | yolo/dataloaders/yolo_input.py:17-29 | succeeds exactly when `PadAxis` gives an axis, and then has the input's shape with that axis set to `instances` |
| Tensors.TwiceNegativeAxis | yolo/dataloaders/yolo_input.py:19-28 | an axis still negative after `rank + pad_axis` pads axis `2 * rank + pad_axis` (for example axis 1 for `-5` on rank 3), except that it raises when it is `-1` |
| Tensors.PadMaxInstancesLeading | yolo/dataloaders/yolo_input.py:21-28 | with the axis normalising to 0: `instances` entries, the input's entries first, pad-value entries after, truncation when long enough |
| Tensors.PadMaxInstancesPerRow | yolo/dataloaders/yolo_input.py:375-378 | with the axis normalising to 1 (`-2` on a batch of boxes), the number of rows is kept and every row is padded on its own |
| Tensors.PadLastAxisOfMatrix | yolo/dataloaders/yolo_input.py:377-378 | `pad_axis = -1` on a `[batch, count]` matrix pads every row's sequence to `instances` with the pad value |
| YoloInput.ParseDType | yolo/dataloaders/yolo_input.py:121-130 | a dtype exactly for "float16", "bfloat16" and "float32", each naming the dtype it maps to; every other name is rejected |
| YoloInput.DTypeNameParses | yolo/dataloaders/yolo_input.py:121-130 | every dtype's name is accepted and maps back to that dtype |
| YoloInput.RoundDown | yolo/dataloaders/yolo_input.py:92-94 | `(x // m) * m` is a multiple of `m` within `m` below `x` |
| YoloInput.RoundDownIsLargest | yolo/dataloaders/yolo_input.py:92-94 | no multiple of `m` that is at most `x` exceeds the rounded size, so it is the largest such multiple |
| YoloInput.ConstructionError | yolo/dataloaders/yolo_input.py:89-130 | construction fails exactly when `masks` is None (`masks.items()` raises) or the dtype is unsupported, and it fails on the dtype exactly when masks were given |
| YoloInput.DefaultsNeedMasks | yolo/dataloaders/yolo_input.py:35-59 | with every keyword default the constructor raises, because `masks` defaults to None; adding masks makes it succeed |
| YoloInput.GridDim | yolo/dataloaders/yolo_input.py:137 | `width // 2**key` is the floor quotient: `r * 2**key <= width < (r + 1) * 2**key` |
| YoloInput.GridDimExact | yolo/dataloaders/yolo_input.py:137 | a width that is a multiple of `2**max_level` splits exactly at every key `0..max_level` |
| YoloInput.GridTable.constructor | yolo/dataloaders/yolo_input.py:100-102 | the mask dictionary holds each configured key's anchor mask |
| YoloInput.RegriddedShape | yolo/dataloaders/yolo_input.py:132-145 | one `_build_grid` keeps the key set; every key gets a cast grid of dimension `width // 2**key`, batched exactly when `batch`, built from that key's previous entry |
| YoloInput.RegriddedAllNests | yolo/dataloaders/yolo_input.py:132-145 | after `n` calls every entry nests `n` builds over the original anchor mask, because each call overwrites the mask it reads |
| YoloInput.ClipOrPad | yolo/dataloaders/yolo_input.py:271-282 | fixed-size padding gives `n` leading entries, keeps the input's first entries and fills the rest |
| YoloInput.PadEachSample | yolo/dataloaders/yolo_input.py:375-378 | padding a batch along axis 1 keeps the batch size and pads every sample to `n` instances |
| YoloInput.PadInstances | yolo/dataloaders/yolo_input.py:333-341 | `pad_max_instances(value, n, fill)` on the leading axis: shape with `n` instances, prefix kept, rest filled |
| YoloInput.Parser.constructor | yolo/dataloaders/yolo_input.py:89-130 | `net_down_scale == 2**max_level`; `image_w` rounded down to a multiple of it; `image_h` equals `image_w` when None, else rounded the same way; every other argument stored; a fresh mask dictionary |
| YoloInput.Parser.Create | yolo/dataloaders/yolo_input.py:35-130 | `Parser(**args)` raises exactly the construction error, else yields a fresh, configured parser |
| YoloInput.Parser.BuildGrid | yolo/dataloaders/yolo_input.py:132-145 | returns the parser's own mask dictionary, overwritten in place with every key regridded from its previous entry |
| YoloInput.Parser.PostprocessFn | yolo/dataloaders/yolo_input.py:405-409 | a post-processor exactly in training with `not fixed_size or cutmix` |
| YoloInput.Parser.GridBuiltOnce | yolo/dataloaders/yolo_input.py:405-409 | per-sample grid building (`fixed_size and not cutmix`, line 275) happens exactly when no post-processor is returned, so in training exactly one of the two builds the grid; in evaluation there is none |
| YoloInput.Parser.TrainRandScale | yolo/dataloaders/yolo_input.py:230-241 | `randscale` is `image_w // net_down_scale` unless fixed size and the draw fires, and then lies in `[10, 15)` |
| YoloInput.Parser.PostRandScale | yolo/dataloaders/yolo_input.py:380-390 | `randscale` is `image_w // net_down_scale`, or lies in `[10, 21)` when not fixed size and the draw fires |
| YoloInput.Parser.PostWidthSplitsEvenly | yolo/dataloaders/yolo_input.py:380-391 | the resize width is a multiple of `net_down_scale`; it equals `image_w` when no draw is taken; every grid key `0..max_level` divides it exactly |
| YoloInput.Parser.ParseTrainData | yolo/dataloaders/yolo_input.py:266-308 | `num_detections` is the count before padding; classes padded with -1 and boxes with 0 to `max_num_instances`; best anchors and a grid exactly for fixed size without cutmix; otherwise the masks are untouched |
| YoloInput.Parser.ParseEvalData | yolo/dataloaders/yolo_input.py:321-363 | every instance field padded (boxes, anchors, area and crowd flags with 0, classes with -1); `num_detections` is the unpadded count; the grid is always built, and is the parser's own dictionary |
| YoloInput.Parser.BatchSource | yolo/dataloaders/yolo_input.py:367-397 | with cutmix on a non-empty batch, boxes and classes are padded per sample (0 and -1); otherwise they are unchanged; best anchors are padded per sample with 0; other entries are kept |
| YoloInput.Parser.Postprocess | yolo/dataloaders/yolo_input.py:365-403 | the label dictionary passed in is updated in place and returned; the grid is built in batch mode at the drawn width into the parser's own dictionary; boxes leave in corner layout |
| DecoderPlan.DepthAtGrows | yolo/modeling/decoders/dilated_decoder.py:123-124 | the depth a level is zipped with doubles from one level to the next and grows strictly with the level |
| DecoderPlan.TailCallShape | yolo/modeling/decoders/dilated_decoder.py:44-68 | FPNTail returns a (route, upsampled) pair exactly when it upsamples; the route has `filters // 2` channels and the upsampled map `filters // 4` |
| DecoderPlan.FpnOutputs | yolo/modeling/decoders/dilated_decoder.py:148-160 | YoloFPN's outputs are keyed by exactly the levels `min..max` |
| DecoderPlan.FpnLeaves | yolo/modeling/decoders/dilated_decoder.py:148-160 | YoloFPN's input and output at level `l` read exactly the inputs at levels `l..max` |
| DecoderPlan.FpnOutputLocal | yolo/modeling/decoders/dilated_decoder.py:148-160 | changing inputs below level `l` leaves YoloFPN's output at `l` unchanged |
| DecoderPlan.FpnOutputChannels | yolo/modeling/decoders/dilated_decoder.py:140-158 | with the planned tails, each YoloFPN output has half its level's depth in channels |
| DecoderPlan.RoutedOutputs | yolo/modeling/decoders/dilated_decoder.py:237-246 | YoloRoutedDecoder's outputs are keyed by exactly the levels `min..max` |
| DecoderPlan.RoutedLeaves | yolo/modeling/decoders/dilated_decoder.py:237-246 | the routed decoder's output at level `l` reads exactly the inputs at levels `l..max` |
| DecoderPlan.RoutedOutputLocal | yolo/modeling/decoders/dilated_decoder.py:237-246 | changing inputs below level `l` leaves the routed output at `l` unchanged |
| DecoderPlan.PanOutputs | yolo/modeling/decoders/dilated_decoder.py:323-332 | YoloFPNDecoder's outputs are keyed by exactly the levels `min..max` |
| DecoderPlan.PanLeaves | yolo/modeling/decoders/dilated_decoder.py:323-332 | the bottom-up output at level `l` reads exactly the inputs at levels `min..l` |
| DecoderPlan.PanOutputLocal | yolo/modeling/decoders/dilated_decoder.py:323-332 | changing inputs above level `l` leaves the bottom-up output at `l` unchanged |
| DecoderPlan.ComposedLeaves | yolo/modeling/decoders/dilated_decoder.py:391-394 | with `embed_fpn` over backbone features, every output level reads every backbone level |
| DecoderPlan.MidTop | yolo/modeling/decoders/dilated_decoder.py:148-160 | over backbone features, YoloFPN's output at level `k` reads exactly the backbone levels `k..max` |
| DecoderPlan.PanReadsAll | yolo/modeling/decoders/dilated_decoder.py:323-332 | when each input level `j` reads exactly the levels `j..max`, every bottom-up output reads every level |
| DecoderPlan.RoutedBackboneLeaves | yolo/modeling/decoders/dilated_decoder.py:391-394 | without `embed_fpn`, the output at level `l` reads only the backbone levels `l..max` |
| DecoderPlan.FpnFeedsPan | yolo/modeling/decoders/dilated_decoder.py:382-394 | the FPN hands the bottom-up decoder half its depth at every level, so that decoder's minimum depth is half the backbone's |
| DilatedDecoder.MinMaxLevels | yolo/modeling/decoders/dilated_decoder.py:114-116 | the returned levels are in the key set and bound every key |
| DilatedDecoder.ReadLevels | yolo/modeling/decoders/dilated_decoder.py:114-117 | a level range exactly when there is a key (`min` of an empty list raises), with the min level's channels as minimum depth |
| DilatedDecoder.DoublingDepths | yolo/modeling/decoders/dilated_decoder.py:105-110 | the append-and-double loop yields the doubling schedule |
| DilatedDecoder.ScheduleShape | yolo/modeling/decoders/dilated_decoder.py:105-110 | the schedule has `count` entries, entry `i` is `min_depth * 2**i`, strictly ascending for a positive depth |
| DilatedDecoder.Reversed | yolo/modeling/decoders/dilated_decoder.py:110 | `list(reversed(s))` has the same length with entry `i` taken from position `len - 1 - i` |
| DilatedDecoder.ReversedScheduleIsDepthAt | yolo/modeling/decoders/dilated_decoder.py:123-124 | the reversed schedule zipped with the descending levels gives level `l` the depth `min_depth * 2**(l - min)`, strictly descending |
| DilatedDecoder.ScheduleIsDepthAt | yolo/modeling/decoders/dilated_decoder.py:305-306 | the ascending schedule zipped with the ascending levels gives the same per-level depth |
| DilatedDecoder.FpnBuildTables | yolo/modeling/decoders/dilated_decoder.py:123-145 | a preprocessor and tail at every level, a resampler at every level but the max, SPP and `fpn_path_len + 2` repetitions only at the max, no upsampling only in the min tail |
| DilatedDecoder.RoutedBuildTables | yolo/modeling/decoders/dilated_decoder.py:211-228 | a preprocessor at every level, with `max_level_process_len + 2*(embed_spp)` repetitions at the max; upsampling resamplers at exactly the levels below the max |
| DilatedDecoder.PanBuildTables | yolo/modeling/decoders/dilated_decoder.py:305-321 | every preprocessor with `depth * 2` filters, the min one with the SPP repetitions; downsampling resamplers at exactly the levels above the min |
| DilatedDecoder.FpnWalk | yolo/modeling/decoders/dilated_decoder.py:148-160 | the top-down loop succeeds exactly when every level `min..max` has an input, and then returns YoloFPN's outputs |
| DilatedDecoder.RoutedWalk | yolo/modeling/decoders/dilated_decoder.py:237-246 | the top-down loop succeeds exactly when every level has an input, and then returns the routed outputs |
| DilatedDecoder.PanWalk | yolo/modeling/decoders/dilated_decoder.py:323-332 | the bottom-up loop succeeds exactly when every level has an input, and then returns the bottom-up outputs |
| DilatedDecoder.YoloFPN.constructor | yolo/modeling/decoders/dilated_decoder.py:74-103 | stores `fpn_path_len` and the base configuration (a None activation becomes "leaky"), with empty dictionaries |
| DilatedDecoder.YoloFPN.GetRawDepths | yolo/modeling/decoders/dilated_decoder.py:105-110 | one depth per level, descending |
| DilatedDecoder.YoloFPN.Build | yolo/modeling/decoders/dilated_decoder.py:112-146 | fails exactly on an empty input dictionary, changing nothing; otherwise records the level range and leaves the planned dictionaries |
| DilatedDecoder.YoloFPN.Call | yolo/modeling/decoders/dilated_decoder.py:148-160 | an output for every level, or failure exactly when an input level inside the range is missing |
| DilatedDecoder.YoloRoutedDecoder.constructor | yolo/modeling/decoders/dilated_decoder.py:166-198 | `max_level_process_len` defaults to `path_process_len` |
| DilatedDecoder.YoloRoutedDecoder.GetRawDepths | yolo/modeling/decoders/dilated_decoder.py:230-235 | one depth per level, descending |
| DilatedDecoder.YoloRoutedDecoder.Build | yolo/modeling/decoders/dilated_decoder.py:200-228 | fails exactly on an empty input dictionary; otherwise the planned dictionaries |
| DilatedDecoder.YoloRoutedDecoder.Call | yolo/modeling/decoders/dilated_decoder.py:237-246 | an output for every level, or failure exactly when an input level is missing |
| DilatedDecoder.YoloFPNDecoder.constructor | yolo/modeling/decoders/dilated_decoder.py:252-285 | `max_level_process_len` defaults to 1 |
| DilatedDecoder.YoloFPNDecoder.GetRawDepths | yolo/modeling/decoders/dilated_decoder.py:287-292 | one depth per level, ascending (not reversed) |
| DilatedDecoder.YoloFPNDecoder.Build | yolo/modeling/decoders/dilated_decoder.py:294-321 | fails exactly on an empty input dictionary; otherwise the planned dictionaries |
| DilatedDecoder.YoloFPNDecoder.Call | yolo/modeling/decoders/dilated_decoder.py:323-332 | an output for every level, or failure exactly when an input level is missing |
| DilatedDecoder.ConfigRoundTrip | yolo/modeling/decoders/dilated_decoder.py:404-414 | `get_config` of `cls(**config)` is `config` again; from raw arguments only a None activation changes, to "leaky" |
| DilatedDecoder.FpnChannelsForPan | yolo/modeling/decoders/dilated_decoder.py:382-394 | the channels the bottom-up decoder is built from cover exactly the FPN's levels, each half the FPN depth there |
| DilatedDecoder.RunFpn | yolo/modeling/decoders/dilated_decoder.py:112-160 | `build` runs only while the FPN is not built, and a failed build leaves it unbuilt; a built FPN is kept unchanged; the call succeeds exactly when the FPN is built and the inputs cover its level range, and then returns the FPN outputs |
| DilatedDecoder.RunPan | yolo/modeling/decoders/dilated_decoder.py:294-332 | the bottom-up decoder, built from the FPN's output shapes unless it is built already, has the FPN's levels and returns the bottom-up outputs |
| DilatedDecoder.FpnThenPan | yolo/modeling/decoders/dilated_decoder.py:391-394 | with `embed_fpn` the result is the bottom-up decoder applied to the FPN's outputs; each sub-model is built on its first call only, and the bottom-up decoder always has the FPN's levels and half its minimum depth |
| DilatedDecoder.RoutedAlone | yolo/modeling/decoders/dilated_decoder.py:391-394 | without `embed_fpn` the result is the routed decoder's outputs; it is built on its first call only and kept unchanged afterwards |
| DilatedDecoder.FpnKeepsFirstBuild | yolo/modeling/decoders/dilated_decoder.py:112-160 | after a successful first call, a later call that lacks one of the first call's levels fails, and a later call that succeeds has exactly the first call's output levels |
| DilatedDecoder.YoloDecoder.constructor | yolo/modeling/decoders/dilated_decoder.py:338-380 | `get_config` reports the arguments, with the activation normalised |
| DilatedDecoder.YoloDecoder.FromConfig | yolo/modeling/decoders/dilated_decoder.py:412-414 | `from_config(c)` is a fresh decoder whose `get_config` is `c` |
| DilatedDecoder.YoloDecoder.Build | yolo/modeling/decoders/dilated_decoder.py:382-398 | with `embed_fpn` an FPN and the bottom-up decoder, otherwise the routed decoder; `neck` is the FPN or None accordingly; each sub-model gets its share of the configuration |
| DilatedDecoder.YoloDecoder.Call | yolo/modeling/decoders/dilated_decoder.py:391-394 | the bottom-up decoder over the FPN's outputs with `embed_fpn`, else the routed decoder alone; a sub-model that is already built keeps its first build; the call fails exactly when a level of the built range is missing, or when the first call has no inputs |
| YoloConfig.Split | yolo/configs/yolo.py:118 | `str.split` always yields at least one piece |
| YoloConfig.JoinSplit | yolo/configs/yolo.py:118 | `str.split` loses nothing: joining the pieces with the separator gives the string back |
| YoloConfig.Strip | yolo/configs/yolo.py:114 | the stripped string neither starts nor ends with whitespace |
| YoloConfig.StripSpaced | yolo/configs/yolo.py:114 | leading whitespace goes, and a string without whitespace at its ends is kept |
| YoloConfig.NatToString | yolo/configs/yolo.py:130 | `str(n)` is a non-empty string of digits |
| YoloConfig.ParseNat | yolo/configs/yolo.py:114 | a number exactly for a non-empty string of decimal digits |
| YoloConfig.ParseNatToString | yolo/configs/yolo.py:114 | the digits of `n` read back as `n` |
| YoloConfig.Inner | yolo/configs/yolo.py:131 | `s[1:-1]` is `s` without its first and last characters, or empty for a string shorter than two |
| YoloConfig.UnbracketListRepr | yolo/configs/yolo.py:130-131 | dropping the brackets of `str(list(v))` leaves the numbers joined by ", " |
| YoloConfig.ParseAll | yolo/configs/yolo.py:117-119 | a successful parse has one number per piece |
| YoloConfig.ParseAllPointwise | yolo/configs/yolo.py:117-119 | the pieces parse exactly when every piece parses, and then entry `i` is piece `i`'s number |
| YoloConfig.ReadString | yolo/configs/yolo.py:110-120 | the empty string raises IndexError at `box[0]` |
| YoloConfig.BracketsOptional | yolo/configs/yolo.py:111-120 | "(a, b)" and "[a, b]" read exactly as "a, b" |
| YoloConfig.ListReprReadsBack | yolo/configs/yolo.py:111-115 | the string of a non-empty list reads back, through the bracket branch, as that list |
| YoloConfig.SingletonTupleFails | yolo/configs/yolo.py:111-115 | "(n,)" does not read back: its last piece is empty |
| YoloConfig.ReadBoxes | yolo/configs/yolo.py:106-123 | at most one box per stored element |
| YoloConfig.IntRaises | yolo/configs/yolo.py:121-122 | an `int` element raises IOError once every element before it reads |
| YoloConfig.OthersSkipped | yolo/configs/yolo.py:106-123 | inserting an element of another type anywhere leaves the result unchanged |
| YoloConfig.BoxesOf | yolo/configs/yolo.py:101-124 | None when nothing is stored; otherwise succeeds exactly when every element reads |
| YoloConfig.Stored | yolo/configs/yolo.py:134-140 | one string per box, in order, each `str(list(v))[1:-1]` |
| YoloConfig.FormatReadsBack | yolo/configs/yolo.py:116-120 | a non-empty box's stored string reads back, through the no-bracket branch, as its numbers |
| YoloConfig.StoredReadsBack | yolo/configs/yolo.py:101-140 | reading back what the setter stored gives every box's numbers, in order, as lists, when no box is empty |
| YoloConfig.EmptyBoxDoesNotReadBack | yolo/configs/yolo.py:110-111 | an empty box is stored as "" and reading it back raises IndexError |
| YoloConfig.ModelConfig.constructor | yolo/configs/yolo.py:38-45 | a configuration holding the given box setting and input size |
| YoloConfig.ModelConfig.InputSize | yolo/configs/yolo.py:40-45 | `[None, None, 3]` when unset, else the stored shape |
| YoloConfig.ModelConfig.SetInputSize | yolo/configs/yolo.py:47-49 | the getter then returns the shape set, or the default after setting None; the boxes are untouched |
| YoloConfig.ModelConfig.ReadBoxString | yolo/configs/yolo.py:110-120 | one string element read as the getter reads it |
| YoloConfig.ModelConfig.ParsePieces | yolo/configs/yolo.py:117-119 | the inner loop yields the parse of all pieces, or the first piece's error |
| YoloConfig.ModelConfig.GetBoxes | yolo/configs/yolo.py:101-124 | the getter's loop returns exactly the boxes of the stored setting, or its first error |
| YoloConfig.ModelConfig.SetBoxes | yolo/configs/yolo.py:126-140 | the setter and `set_boxes` store the boxes' strings and change nothing else |
| YoloConfig.ModelConfig.AsDict | yolo/configs/yolo.py:51-61 | succeeds exactly when the boxes read; adds `_boxes` to the base keys and keeps every other key; `_boxes` is None exactly when no boxes are set, and otherwise holds `str(b)` for each box the getter returns, in order |
| YoloConfig.SetThenGet | yolo/configs/yolo.py:126-140 | setting non-empty boxes and reading them gives them back, in order, as lists |
| YoloConfig.AsDictAfterSet | yolo/configs/yolo.py:51-61 | after the setter, `as_dict` holds each box as the string of its list, brackets included, and keeps every other key |

## Left out

- Image processing is not modelled: blur, HSV jitter, noise, flip, box and image jitter, zoom-crop, letterbox, resize and cutmix. The label packaging receives the augmented boxes and classes, the scale draw and the cutmix result as parameters.
- The grid builder, the anchor matcher and the box-format conversions are outside the model, since their source is not part of this model. A grid is a symbolic record of the builder's arguments (`Grid`). Matched anchors are a parameter. A box conversion only retags the layout (`BoxFormat`).
- `tf.cast` to the parser's dtype is modelled as identity on the label tensors. In the grid, the cast is recorded (`Cast`).
- YoloInput.GridRequest: the `raw_true['bbox'].dtype` argument of the grid builder is not recorded.
- YoloInput.GridDim: Python gives a float for a negative key (`2**-1`). The model multiplies instead, and keys are assumed to be integers already (`int(key)` of a non-numeric key is not modelled).
- The `width` and `height` label entries take the values the augmentation hands over. The image shapes they come from are not modelled.
- YoloInput.Parser.TrainRandScale, YoloInput.Parser.PostRandScale: the random draws are parameters, and their ranges are preconditions.
- The anchors, seeds, process sizes and augmentation flags are stored by the constructor but have no further effect in the model.
- Keras layer building on first call is made explicit. Each sub-model carries Keras' `built` flag, and the classes' `Build` methods take the input channels (the last dimension of each input). `RunFpn`, `RunPan` and `RoutedAlone` build only while the flag is clear, so later calls keep the first build.
- Keras blocks (`ConvBN`, `DarkRouteProcess`, `RouteMerge`, `UpSampling2D`) are opaque symbols, and tensors are expressions over them. Numerics, spatial sizes and the `training` flag are not modelled.
- `YoloDecoder.head` is not modelled (`neck` is). `register_keras_serializable` and `custom_objects` are not modelled either.
- YoloConfig.ParseNat: Python's `float` is restricted to decimal naturals. Signs, fractions, exponents, `inf`/`nan` and underscores are not accepted, and the getter returns the numbers as naturals where Python returns floats.
- YoloConfig.Strip: only the ASCII whitespace characters are stripped. Python also strips other Unicode whitespace.
- List and tuple elements of a box setting hold naturals only (`Numbers`).
- A `bool` element is an `IntEntry`, because `bool` is a subclass of `int` in Python; it raises IOError like any other `int`.
- YoloConfig.StoredReadsBack: the round trip is proved only for non-empty boxes. An empty box does not read back, and `EmptyBoxDoesNotReadBack` proves that.
- YoloConfig.ModelConfig.AsDict: `super().as_dict()` is a parameter (`base`).
- YoloConfig.BoxRepr: Python's strings show the getter's floats (`"[12.0, 16.0]"`). The model's strings show naturals (`"[12, 16]"`), because the getter is modelled as returning naturals.
- YoloInput.Parser.constructor: `max_level` is a natural. With a negative `max_level`, Python's `2**max_level` and both rounded sizes are floats, which the model does not represent.
- The `backbone`, `decoder` and `darknet_*` properties of the configuration are not modelled, since they read a table not defined in the configuration file. The configuration factories and learning-rate settings are not modelled either.
- Dataclass schemas, tf.data batching and random seeding are not modelled.
