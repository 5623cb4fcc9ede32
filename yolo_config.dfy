/**
 * The anchor-box codec of the YOLO model configuration (yolo.py): the
 * `boxes` property reads boxes stored as strings such as "12, 16" or
 * "(12, 16)", and its setter stores every box as its numbers joined by ", ".
 * Numbers are decimal naturals here; `ModelConfig` keeps the two fields the
 * codec and `input_size` read and write.
 */
module YoloConfig {
  import opened Wrappers

  // ---------------------------------------------------------------------------
  // Text helpers: str.split, str.strip, str(n) and float(s) on naturals

  /** `s.split(sep)`: the pieces between separators, empty pieces included. */
  function Split(s: string, sep: char): (r: seq<string>)
    ensures |r| >= 1
    decreases |s|
  {
    if s == [] then [""]
    else
      var rest := Split(s[1..], sep);
      if s[0] == sep then [""] + rest
      else [[s[0]] + rest[0]] + rest[1..]
  }

  /** `sep.join(ps)`. */
  function Join(ps: seq<string>, sep: string): string
    decreases |ps|
  {
    if ps == [] then ""
    else if |ps| == 1 then ps[0]
    else ps[0] + sep + Join(ps[1..], sep)
  }

  /** Joining the pieces of a split gives the string back. */
  lemma {:induction false} JoinSplit(s: string, sep: char)
    ensures Join(Split(s, sep), [sep]) == s
    decreases |s|
  {
    if s != [] {
      var rest := Split(s[1..], sep);
      JoinSplit(s[1..], sep);
      if s[0] == sep {
        assert Split(s, sep) == [""] + rest;
        assert Join([""] + rest, [sep]) == "" + [sep] + Join(rest, [sep]);
        assert s == [sep] + s[1..];
      } else if |rest| == 1 {
        assert Split(s, sep) == [[s[0]] + rest[0]];
        assert s == [s[0]] + s[1..];
      } else {
        var ps := [[s[0]] + rest[0]] + rest[1..];
        assert Split(s, sep) == ps;
        assert ps[1..] == rest[1..];
        assert Join(rest, [sep]) == rest[0] + [sep] + Join(rest[1..], [sep]);
        assert Join(ps, [sep]) == [s[0]] + rest[0] + [sep] + Join(rest[1..], [sep]);
        assert s == [s[0]] + s[1..];
      }
    }
  }

  /** A string without the separator splits into itself. */
  lemma {:induction false} SplitWhole(a: string, sep: char)
    requires sep !in a
    ensures Split(a, sep) == [a]
    decreases |a|
  {
    if a != [] {
      assert sep !in a[1..] by {
        forall i | 0 <= i < |a[1..]| ensures a[1..][i] != sep {
          assert a[1..][i] == a[i + 1];
        }
      }
      SplitWhole(a[1..], sep);
      assert a == [a[0]] + a[1..];
    }
  }

  /** A separator after a separator-free prefix ends the first piece. */
  lemma {:induction false} SplitAfter(a: string, b: string, sep: char)
    requires sep !in a
    ensures Split(a + [sep] + b, sep) == [a] + Split(b, sep)
    decreases |a|
  {
    var s := a + [sep] + b;
    if a == [] {
      assert s == [sep] + b;
      assert s[1..] == b;
    } else {
      assert sep !in a[1..] by {
        forall i | 0 <= i < |a[1..]| ensures a[1..][i] != sep {
          assert a[1..][i] == a[i + 1];
        }
      }
      SplitAfter(a[1..], b, sep);
      assert s[1..] == a[1..] + [sep] + b;
      assert s[0] == a[0] && a[0] != sep;
      assert a == [a[0]] + a[1..];
    }
  }

  /** The characters `str.strip()` removes (the ASCII ones). */
  predicate IsSpace(c: char)
  {
    c == ' ' || c == '\t' || c == '\n' || c == '\r' || c == '\U{0B}' || c == '\U{0C}'
  }

  function StripLeft(s: string): (r: string)
    ensures |r| <= |s|
    ensures r == [] || !IsSpace(r[0])
    decreases |s|
  {
    if s != [] && IsSpace(s[0]) then StripLeft(s[1..]) else s
  }

  function StripRight(s: string): (r: string)
    ensures |r| <= |s| && (r != [] ==> r[0] == s[0])
    ensures r == [] || !IsSpace(r[|r| - 1])
    decreases |s|
  {
    if s != [] && IsSpace(s[|s| - 1]) then StripRight(s[..|s| - 1]) else s
  }

  /** `s.strip()`: `s` without leading and trailing whitespace. */
  function Strip(s: string): (r: string)
    ensures r == [] || (!IsSpace(r[0]) && !IsSpace(r[|r| - 1]))
  {
    StripRight(StripLeft(s))
  }

  /** Leading spaces go, and a string with no space at its ends is kept. */
  lemma {:induction false} StripSpaced(pad: string, s: string)
    requires forall i :: 0 <= i < |pad| ==> IsSpace(pad[i])
    requires s != [] && !IsSpace(s[0]) && !IsSpace(s[|s| - 1])
    ensures Strip(pad + s) == s
    decreases |pad|
  {
    if pad == [] {
      assert pad + s == s;
    } else {
      assert (pad + s)[1..] == pad[1..] + s;
      StripSpaced(pad[1..], s);
    }
  }

  predicate IsDigit(c: char) { '0' <= c <= '9' }

  function DigitChar(d: nat): (c: char)
    requires d < 10
    ensures IsDigit(c) && c as int - '0' as int == d
  {
    ('0' as int + d) as char
  }

  /** `str(n)`: the decimal digits of `n`, most significant first. */
  function NatToString(n: nat): (s: string)
    ensures |s| >= 1
    ensures forall i :: 0 <= i < |s| ==> IsDigit(s[i])
    decreases n
  {
    if n < 10 then [DigitChar(n)] else NatToString(n / 10) + [DigitChar(n % 10)]
  }

  /** The value of a string of decimal digits. */
  function DigitsValue(s: string): nat
    requires forall i :: 0 <= i < |s| ==> IsDigit(s[i])
    decreases |s|
  {
    if s == [] then 0
    else
      assert IsDigit(s[|s| - 1]);
      DigitsValue(s[..|s| - 1]) * 10 + (s[|s| - 1] as int - '0' as int)
  }

  /**
   * `float(s)` on the decimal naturals: a non-empty string of digits, and
   * nothing else, is a number.
   */
  function ParseNat(s: string): (r: Option<nat>)
    ensures r.Some? <==> s != [] && forall i :: 0 <= i < |s| ==> IsDigit(s[i])
  {
    if s != [] && forall i :: 0 <= i < |s| ==> IsDigit(s[i]) then Some(DigitsValue(s)) else None
  }

  /** Reading back the digits of a natural gives that natural. */
  lemma {:induction false} ParseNatToString(n: nat)
    ensures ParseNat(NatToString(n)) == Some(n)
    decreases n
  {
    var s := NatToString(n);
    if n >= 10 {
      ParseNatToString(n / 10);
      assert s[..|s| - 1] == NatToString(n / 10);
      assert DigitsValue(s) == DigitsValue(NatToString(n / 10)) * 10 + n % 10;
    }
  }

  // ---------------------------------------------------------------------------
  // The box codec

  /** The `(a, b)` pair and the list of anchor boxes are lists of numbers. */
  type Numbers = seq<nat>

  /** What a box setting may hold: lists and tuples, strings, ints, and anything else. */
  datatype Entry =
    | ListEntry(xs: Numbers)
    | TupleEntry(xs: Numbers)
    | StrEntry(s: string)
    | IntEntry(n: int)
    | OtherEntry

  /** A box as the getter returns it: a passed-through tuple stays a tuple. */
  datatype Box = ListBox(xs: Numbers) | TupleBox(xs: Numbers)

  /** The exceptions the getter raises. */
  datatype BoxError =
    | IndexError            // `box[0]` on the empty string
    | ValueError(s: string) // `float` on a piece that is not a number
    | IOError               // an `int` element

  /** The numbers joined by ", ", which `str(list(v))[1:-1]` produces. */
  function Format(xs: Numbers): string
    decreases |xs|
  {
    if xs == [] then ""
    else if |xs| == 1 then NatToString(xs[0])
    else NatToString(xs[0]) + ", " + Format(xs[1..])
  }

  /** `str(list(v))`. */
  function ListRepr(xs: Numbers): string
  {
    "[" + Format(xs) + "]"
  }

  /** `str(tuple(v))`: a one-element tuple keeps a trailing comma. */
  function TupleRepr(xs: Numbers): string
  {
    if |xs| == 1 then "(" + NatToString(xs[0]) + ",)" else "(" + Format(xs) + ")"
  }

  /** Python's `s[1:-1]`. */
  function Inner(s: string): (r: string)
    ensures |s| >= 2 ==> s == [s[0]] + r + [s[|s| - 1]]
    ensures |s| < 2 ==> r == ""
  {
    if |s| >= 2 then s[1..|s| - 1] else ""
  }

  /** Dropping the brackets of `str(list(v))` leaves the numbers joined by ", ". */
  lemma UnbracketListRepr(xs: Numbers)
    ensures Inner(ListRepr(xs)) == Format(xs)
  {
  }

  /** `float(b.strip())` for one piece `b`. */
  function ParsePiece(b: string): Option<nat>
  {
    ParseNat(Strip(b))
  }

  /** What the inner loop leaves in `f`: every piece trimmed and parsed, in order. */
  function ParseAll(pieces: seq<string>): (r: Result<Numbers, BoxError>)
    ensures r.Ok? ==> |r.value| == |pieces|
    decreases |pieces|
  {
    if pieces == [] then Ok([])
    else
      var n := ParsePiece(pieces[0]);
      if n.None? then Err(ValueError(Strip(pieces[0])))
      else
        var rest := ParseAll(pieces[1..]);
        if rest.Err? then rest else Ok([n.value] + rest.value)
  }

  /** `ParseAll` succeeds exactly when every piece parses, and then lists their values. */
  lemma {:induction false} ParseAllPointwise(pieces: seq<string>)
    ensures ParseAll(pieces).Ok? <==> forall i {:trigger ParsePiece(pieces[i])} :: 0 <= i < |pieces| ==> ParsePiece(pieces[i]).Some?
    ensures ParseAll(pieces).Ok? ==>
              forall i {:trigger ParsePiece(pieces[i])} :: 0 <= i < |pieces| ==> ParseAll(pieces).value[i] == ParsePiece(pieces[i]).value
    decreases |pieces|
  {
    if pieces != [] {
      var rest := pieces[1..];
      ParseAllPointwise(rest);
      var n := ParsePiece(pieces[0]);
      if n.Some? && ParseAll(rest).Ok? {
        assert ParseAll(pieces) == Ok([n.value] + ParseAll(rest).value);
        forall i | 1 <= i < |pieces|
          ensures ParsePiece(pieces[i]).Some? && ParseAll(pieces).value[i] == ParsePiece(pieces[i]).value
        {
          assert pieces[i] == rest[i - 1];
        }
      } else if n.Some? {
        var k :| 0 <= k < |rest| && ParsePiece(rest[k]).None?;
        assert pieces[k + 1] == rest[k];
      }
    }
  }

  /** One string element of the setting, read as the getter reads it. */
  function ReadString(s: string): (r: Result<Numbers, BoxError>)
    ensures s == [] ==> r == Err(IndexError)
  {
    if s == [] then Err(IndexError)
    else if s[0] == '(' || s[0] == '[' then ParseAll(Split(Inner(s), ','))
    else ParseAll(Split(s, ','))
  }

  /** One element of the setting: a box, skipped (None), or an error. */
  function ReadEntry(e: Entry): Result<Option<Box>, BoxError>
  {
    match e
    case ListEntry(xs) => Ok(Some(ListBox(xs)))
    case TupleEntry(xs) => Ok(Some(TupleBox(xs)))
    case StrEntry(s) =>
      var f := ReadString(s);
      if f.Err? then Err(f.error) else Ok(Some(ListBox(f.value)))
    case IntEntry(_) => Err(IOError)
    case OtherEntry => Ok(None)
  }

  /** The getter's loop over the setting: the first error wins, skipped elements vanish. */
  function ReadBoxes(es: seq<Entry>): (r: Result<seq<Box>, BoxError>)
    ensures r.Ok? ==> |r.value| <= |es|
    decreases |es|
  {
    if es == [] then Ok([]) else Then(ReadEntry(es[0]), ReadBoxes(es[1..]))
  }

  /** One element read, followed by the rest: an error in the element comes first. */
  function Then(b: Result<Option<Box>, BoxError>, rest: Result<seq<Box>, BoxError>): Result<seq<Box>, BoxError>
  {
    if b.Err? then Err(b.error)
    else if rest.Err? then rest
    else if b.value.Some? then Ok([b.value.value] + rest.value)
    else rest
  }

  /** Values already read, in front of what the rest of the elements read as. */
  function Prefixed<T>(acc: seq<T>, rest: Result<seq<T>, BoxError>): Result<seq<T>, BoxError>
  {
    if rest.Err? then rest else Ok(acc + rest.value)
  }

  /** Moving one value from the rest into the values already read changes nothing. */
  lemma PrefixedPush<T>(acc: seq<T>, b: T, rest: Result<seq<T>, BoxError>)
    ensures rest.Ok? ==> Prefixed(acc, Ok([b] + rest.value)) == Prefixed(acc + [b], rest)
    ensures rest.Err? ==> Prefixed(acc, rest) == Prefixed(acc + [b], rest)
  {
    if rest.Ok? {
      assert acc + ([b] + rest.value) == acc + [b] + rest.value;
    }
  }

  /** One step of the inner loop: a piece that does not parse raises, one that does is appended. */
  lemma ParseAllStep(pieces: seq<string>, i: nat, f: Numbers)
    requires i < |pieces|
    ensures ParsePiece(pieces[i]).None? ==> ParseAll(pieces[i..]) == Err(ValueError(Strip(pieces[i])))
    ensures ParsePiece(pieces[i]).Some? ==>
              Prefixed(f, ParseAll(pieces[i..])) == Prefixed(f + [ParsePiece(pieces[i]).value], ParseAll(pieces[i + 1..]))
  {
    assert pieces[i..][1..] == pieces[i + 1..];
    var n := ParsePiece(pieces[i]);
    if n.Some? {
      PrefixedPush(f, n.value, ParseAll(pieces[i + 1..]));
    }
  }

  /** The `boxes` property: None when nothing is set. */
  function BoxesOf(setting: Option<seq<Entry>>): (r: Result<Option<seq<Box>>, BoxError>)
    ensures setting.None? ==> r == Ok(None)
    ensures setting.Some? ==> (r.Ok? <==> ReadBoxes(setting.value).Ok?)
    ensures setting.Some? && r.Ok? ==> r.value.Some?
  {
    if setting.None? then Ok(None)
    else
      var bs := ReadBoxes(setting.value);
      if bs.Err? then Err(bs.error) else Ok(Some(bs.value))
  }

  /** What the setter stores for `boxList`: one string per box, in order. */
  function Stored(boxList: seq<Numbers>): (r: seq<Entry>)
    ensures |r| == |boxList|
    ensures forall i :: 0 <= i < |boxList| ==> r[i] == StrEntry(Inner(ListRepr(boxList[i])))
  {
    seq(|boxList|, i requires 0 <= i < |boxList| => StrEntry(Inner(ListRepr(boxList[i]))))
  }

  /** `Format(xs)` splits on ',' into the digits of each number, all but the first after a space. */
  lemma {:induction false} SplitFormat(xs: Numbers)
    requires |xs| >= 1
    ensures var ps := Split(Format(xs), ',');
            && |ps| == |xs|
            && ps[0] == NatToString(xs[0])
            && forall i :: 1 <= i < |xs| ==> ps[i] == " " + NatToString(xs[i])
    decreases |xs|
  {
    var d := NatToString(xs[0]);
    assert ',' !in d by {
      forall i | 0 <= i < |d| ensures d[i] != ',' {
        assert IsDigit(d[i]);
      }
    }
    if |xs| == 1 {
      SplitWhole(d, ',');
    } else {
      var tail := Format(xs[1..]);
      SplitFormat(xs[1..]);
      assert Format(xs) == d + [','] + (" " + tail);
      SplitAfter(d, " " + tail, ',');
      var q := Split(tail, ',');
      assert (" " + tail)[1..] == tail;
      assert Split(" " + tail, ',') == [" " + q[0]] + q[1..];
      forall i | 1 <= i < |xs|
        ensures Split(Format(xs), ',')[i] == " " + NatToString(xs[i])
      {
        if i >= 2 {
          assert xs[1..][i - 1] == xs[i];
        }
      }
    }
  }

  /** The digits of a natural, with or without a leading space, read back as that natural. */
  lemma ReadDigits(n: nat, p: string)
    requires p == NatToString(n) || p == " " + NatToString(n)
    ensures ParseNat(Strip(p)) == Some(n)
  {
    var d := NatToString(n);
    assert !IsSpace(d[0]) && !IsSpace(d[|d| - 1]) by {
      assert IsDigit(d[0]) && IsDigit(d[|d| - 1]);
    }
    if p == d {
      StripSpaced("", d);
      assert "" + d == d;
    } else {
      StripSpaced(" ", d);
    }
    ParseNatToString(n);
  }

  lemma FormatStartsWithDigit(xs: Numbers)
    requires |xs| >= 1
    ensures Format(xs) != [] && IsDigit(Format(xs)[0])
  {
    var d := NatToString(xs[0]);
    if |xs| == 1 {
      assert Format(xs) == d;
    } else {
      var t := Format(xs[1..]);
      assert Format(xs) == d + ", " + t;
      assert (d + ", " + t)[0] == d[0];
    }
  }

  /** The string of a non-empty box reads back as the box's numbers. */
  /** Every piece of a formatted box parses as the number at its position. */
  lemma PiecesParse(xs: Numbers)
    requires |xs| >= 1
    ensures var ps := Split(Format(xs), ',');
            |ps| == |xs| && forall i {:trigger ParsePiece(ps[i])} :: 0 <= i < |ps| ==> ParsePiece(ps[i]) == Some(xs[i])
  {
    var ps := Split(Format(xs), ',');
    SplitFormat(xs);
    forall i | 0 <= i < |ps|
      ensures ParsePiece(ps[i]) == Some(xs[i])
    {
      ReadDigits(xs[i], ps[i]);
    }
  }

  /** A piece that parses, in front of pieces that parse, adds its number in front. */
  lemma ParseAllCons(pieces: seq<string>, xs: Numbers)
    requires pieces != [] && |xs| == |pieces|
    requires ParsePiece(pieces[0]) == Some(xs[0]) && ParseAll(pieces[1..]) == Ok(xs[1..])
    ensures ParseAll(pieces) == Ok(xs)
  {
    assert xs == [xs[0]] + xs[1..];
  }

  /** What holds at every position holds at every position of the tails. */
  lemma ParsedTail(pieces: seq<string>, xs: Numbers)
    requires |pieces| == |xs| && pieces != []
    requires forall i {:trigger ParsePiece(pieces[i])} :: 0 <= i < |pieces| ==> ParsePiece(pieces[i]) == Some(xs[i])
    ensures forall i {:trigger ParsePiece(pieces[1..][i])} :: 0 <= i < |pieces| - 1 ==> ParsePiece(pieces[1..][i]) == Some(xs[1..][i])
  {
    forall i | 0 <= i < |pieces| - 1 ensures ParsePiece(pieces[1..][i]) == Some(xs[1..][i]) {
      assert pieces[1..][i] == pieces[i + 1] && xs[1..][i] == xs[i + 1];
      assert ParsePiece(pieces[i + 1]) == Some(xs[i + 1]);
    }
  }

  /** Pieces that each parse as the number at their position parse as those numbers. */
  lemma {:induction false} ParseAllValues(pieces: seq<string>, xs: Numbers)
    requires |pieces| == |xs|
    requires forall i {:trigger ParsePiece(pieces[i])} :: 0 <= i < |pieces| ==> ParsePiece(pieces[i]) == Some(xs[i])
    ensures ParseAll(pieces) == Ok(xs)
    decreases |pieces|
  {
    if pieces != [] {
      ParsedTail(pieces, xs);
      ParseAllValues(pieces[1..], xs[1..]);
      assert ParsePiece(pieces[0]) == Some(xs[0]);
      ParseAllCons(pieces, xs);
    }
  }

  /** The pieces of a formatted box parse back to the box. */
  lemma ParseFormat(xs: Numbers)
    requires |xs| >= 1
    ensures ParseAll(Split(Format(xs), ',')) == Ok(xs)
  {
    PiecesParse(xs);
    ParseAllValues(Split(Format(xs), ','), xs);
  }

  /** The string of a non-empty box reads back as the box's numbers. */
  lemma FormatReadsBack(xs: Numbers)
    requires |xs| >= 1
    ensures ReadString(Format(xs)) == Ok(xs)
  {
    FormatStartsWithDigit(xs);
    ParseFormat(xs);
  }

  /** Every box as a list box, in order. */
  function AsLists(boxList: seq<Numbers>): (r: seq<Box>)
    ensures |r| == |boxList|
    ensures forall i :: 0 <= i < |boxList| ==> r[i] == ListBox(boxList[i])
  {
    seq(|boxList|, i requires 0 <= i < |boxList| => ListBox(boxList[i]))
  }

  /** The first stored element reads back as the first box. */
  lemma StoredHeadReadsBack(boxList: seq<Numbers>)
    requires boxList != [] && |boxList[0]| >= 1
    ensures ReadEntry(Stored(boxList)[0]) == Ok(Some(ListBox(boxList[0])))
  {
    UnbracketListRepr(boxList[0]);
    FormatReadsBack(boxList[0]);
  }

  /** Storing and reading as lists both go box by box. */
  lemma StoredTail(boxList: seq<Numbers>)
    requires boxList != []
    ensures Stored(boxList)[1..] == Stored(boxList[1..])
    ensures AsLists(boxList) == [ListBox(boxList[0])] + AsLists(boxList[1..])
    ensures forall i :: 1 <= i < |boxList| ==> boxList[1..][i - 1] == boxList[i]
  {
  }

  /**
   * The round trip: reading back what the setter stored gives every box's
   * numbers, in order, as lists, provided no box is empty.
   */
  lemma {:induction false} StoredReadsBack(boxList: seq<Numbers>)
    requires forall i :: 0 <= i < |boxList| ==> |boxList[i]| >= 1
    ensures ReadBoxes(Stored(boxList)) == Ok(AsLists(boxList))
    decreases |boxList|
  {
    if boxList != [] {
      var es := Stored(boxList);
      var tl := boxList[1..];
      StoredHeadReadsBack(boxList);
      StoredTail(boxList);
      StoredReadsBack(tl);
      assert ReadBoxes(es) == Then(ReadEntry(es[0]), ReadBoxes(es[1..]));
    }
  }

  /** An empty box is stored as "" and reading it back raises IndexError. */
  lemma EmptyBoxDoesNotReadBack()
    ensures Stored([[]]) == [StrEntry("")]
    ensures ReadBoxes(Stored([[]])) == Err(IndexError)
  {
    assert Inner(ListRepr([])) == "";
    assert Stored([[]])[1..] == [];
  }

  /** Surrounding brackets are optional: "(a, b)" and "[a, b]" read as "a, b". */
  lemma BracketsOptional(t: string, open: char, close: char)
    requires open == '(' || open == '['
    requires t != [] && t[0] != '(' && t[0] != '['
    ensures ReadString([open] + t + [close]) == ReadString(t)
  {
    assert Inner([open] + t + [close]) == t;
  }

  /** The string of a list reads back through the bracket branch. */
  lemma ListReprReadsBack(xs: Numbers)
    requires |xs| >= 1
    ensures ReadString(ListRepr(xs)) == Ok(xs)
  {
    FormatReadsBack(xs);
    assert Inner(ListRepr(xs)) == Format(xs);
  }

  /**
   * The string of a one-element tuple, "(n,)", does not read back: its last
   * piece is empty.
   */
  lemma SingletonTupleFails(n: nat)
    ensures ReadString(TupleRepr([n])).Err?
  {
    var d := NatToString(n);
    assert ',' !in d by {
      forall i | 0 <= i < |d| ensures d[i] != ',' {
        assert IsDigit(d[i]);
      }
    }
    var t := TupleRepr([n]);
    assert t == ['('] + (d + [',']) + [')'];
    assert t[0] == '(';
    assert Inner(t) == d + [','] + "";
    SplitAfter(d, "", ',');
    var ps := Split(Inner(t), ',');
    assert ps == [d, ""];
    assert Strip(ps[1]) == "";
    ParseAllPointwise(ps);
  }

  /** An `int` element raises as soon as the loop reaches it. */
  lemma {:induction false} IntRaises(es: seq<Entry>, k: nat)
    requires k < |es| && es[k].IntEntry?
    requires ReadBoxes(es[..k]).Ok?
    ensures ReadBoxes(es) == Err(IOError)
    decreases k
  {
    if k > 0 {
      assert es[..k][1..] == es[1..][..k - 1];
      assert ReadEntry(es[0]).Ok?;
      IntRaises(es[1..], k - 1);
    }
  }

  /** Elements of other types are skipped without a trace. */
  lemma {:induction false} OthersSkipped(es: seq<Entry>, k: nat)
    requires k <= |es|
    ensures ReadBoxes(es[..k] + [OtherEntry] + es[k..]) == ReadBoxes(es)
    decreases k
  {
    if k == 0 {
      assert es[..0] + [OtherEntry] + es[0..] == [OtherEntry] + es;
      assert ([OtherEntry] + es)[1..] == es;
    } else {
      var s := es[..k] + [OtherEntry] + es[k..];
      OthersSkipped(es[1..], k - 1);
      assert s[0] == es[0];
      assert s[1..] == es[1..][..k - 1] + [OtherEntry] + es[1..][k - 1..];
    }
  }

  /** `as_dict`'s `str(b)` of a box the getter returned. */
  function BoxRepr(b: Box): string
  {
    match b
    case ListBox(xs) => ListRepr(xs)
    case TupleBox(xs) => TupleRepr(xs)
  }

  /** A keyword argument of the model's dictionary: box strings, or another setting. */
  datatype Kwarg = BoxStrings(strings: Option<seq<string>>) | Setting(value: string)

  // ---------------------------------------------------------------------------
  // The configuration object

  class ModelConfig {
    /** `_boxes`: None, or the stored elements. */
    var boxSetting: Option<seq<Entry>>
    /** `_input_size`: None, or a shape whose unknown dimensions are None. */
    var inputSizeSetting: Option<seq<Option<nat>>>

    constructor(boxes: Option<seq<Entry>>, inputSize: Option<seq<Option<nat>>>)
      ensures boxSetting == boxes && inputSizeSetting == inputSize
    {
      boxSetting := boxes;
      inputSizeSetting := inputSize;
    }

    /** `input_size`: the stored shape, or `[None, None, 3]` when unset. */
    function InputSize(): (r: seq<Option<nat>>)
      reads this
      ensures inputSizeSetting.Some? ==> r == inputSizeSetting.value
      ensures inputSizeSetting.None? ==> r == [None, None, Some(3)]
    {
      if inputSizeSetting.None? then [None, None, Some(3)] else inputSizeSetting.value
    }

    /** The `input_size` setter; setting None brings the default back. */
    method SetInputSize(size: Option<seq<Option<nat>>>)
      modifies this
      ensures inputSizeSetting == size && boxSetting == old(boxSetting)
      ensures size.Some? ==> InputSize() == size.value
      ensures size.None? ==> InputSize() == [None, None, Some(3)]
    {
      inputSizeSetting := size;
    }

    /** One string element read as the getter reads it: brackets dropped, then split on ','. */
    static method ReadBoxString(s: string) returns (r: Result<Numbers, BoxError>)
      ensures r == ReadString(s)
    {
      if s == [] {
        return Err(IndexError);
      }
      if s[0] == '(' || s[0] == '[' {
        r := ParsePieces(Split(Inner(s), ','));
      } else {
        r := ParsePieces(Split(s, ','));
      }
    }

    /** The getter's inner loop: `f.append(float(b.strip()))` for every piece `b`. */
    static method ParsePieces(pieces: seq<string>) returns (r: Result<Numbers, BoxError>)
      ensures r == ParseAll(pieces)
    {
      var f: Numbers := [];
      var i := 0;
      assert pieces[0..] == pieces;
      if ParseAll(pieces).Ok? {
        assert [] + ParseAll(pieces).value == ParseAll(pieces).value;
      }
      while i < |pieces|
        invariant 0 <= i <= |pieces|
        invariant ParseAll(pieces) == Prefixed(f, ParseAll(pieces[i..]))
      {
        ParseAllStep(pieces, i, f);
        var n := ParsePiece(pieces[i]);
        if n.None? {
          return Err(ValueError(Strip(pieces[i])));
        }
        f := f + [n.value];
        i := i + 1;
      }
      assert pieces[i..] == [];
      assert f + [] == f;
      return Ok(f);
    }

    /** The `boxes` getter. */
    method GetBoxes() returns (r: Result<Option<seq<Box>>, BoxError>)
      ensures r == BoxesOf(boxSetting)
    {
      if boxSetting.None? {
        return Ok(None);
      }
      var entries := boxSetting.value;
      var boxes: seq<Box> := [];
      var i := 0;
      assert entries[0..] == entries;
      if ReadBoxes(entries).Ok? {
        assert [] + ReadBoxes(entries).value == ReadBoxes(entries).value;
      }
      while i < |entries|
        invariant 0 <= i <= |entries|
        invariant ReadBoxes(entries) == Prefixed(boxes, ReadBoxes(entries[i..]))
      {
        ghost var rest := ReadBoxes(entries[i + 1..]);
        assert entries[i..][1..] == entries[i + 1..];
        assert ReadBoxes(entries[i..]) == Then(ReadEntry(entries[i]), rest);
        match entries[i] {
          case ListEntry(xs) =>
            PrefixedPush(boxes, ListBox(xs), rest);
            boxes := boxes + [ListBox(xs)];
          case TupleEntry(xs) =>
            PrefixedPush(boxes, TupleBox(xs), rest);
            boxes := boxes + [TupleBox(xs)];
          case StrEntry(s) =>
            var f := ReadBoxString(s);
            if f.Err? {
              return Err(f.error);
            }
            PrefixedPush(boxes, ListBox(f.value), rest);
            boxes := boxes + [ListBox(f.value)];
          case IntEntry(_) =>
            return Err(IOError);
          case OtherEntry =>
        }
        i := i + 1;
      }
      assert entries[i..] == [];
      assert boxes + [] == boxes;
      return Ok(Some(boxes));
    }

    /** The `boxes` setter and `set_boxes`: each box stored as `str(list(v))[1:-1]`. */
    method SetBoxes(boxList: seq<Numbers>)
      modifies this
      ensures boxSetting == Some(Stored(boxList)) && inputSizeSetting == old(inputSizeSetting)
    {
      var setter: seq<Entry> := [];
      var i := 0;
      while i < |boxList|
        invariant 0 <= i <= |boxList|
        invariant setter == Stored(boxList[..i])
      {
        var value := ListRepr(boxList[i]);
        setter := setter + [StrEntry(Inner(value))];
        assert boxList[..i + 1] == boxList[..i] + [boxList[i]];
        i := i + 1;
      }
      assert boxList[..i] == boxList;
      boxSetting := Some(setter);
    }

    /** `as_dict`: the base keyword arguments with `_boxes` as the strings of the boxes read. */
    function AsDict(base: map<string, Kwarg>): (r: Result<map<string, Kwarg>, BoxError>)
      reads this
      ensures r.Ok? <==> BoxesOf(boxSetting).Ok?
      ensures r.Ok? ==> r.value.Keys == base.Keys + {"_boxes"}
      ensures r.Ok? ==> forall k :: k in base && k != "_boxes" ==> r.value[k] == base[k]
      ensures r.Ok? ==> r.value["_boxes"].BoxStrings? && (r.value["_boxes"].strings.None? <==> boxSetting.None?)
      ensures r.Ok? && boxSetting.Some? ==>
                var boxes := BoxesOf(boxSetting).value.value;
                var strings := r.value["_boxes"].strings.value;
                |strings| == |boxes| && forall i :: 0 <= i < |boxes| ==> strings[i] == BoxRepr(boxes[i])
    {
      if boxSetting.None? then Ok(base["_boxes" := BoxStrings(None)])
      else
        var bs := BoxesOf(boxSetting);
        if bs.Err? then Err(bs.error)
        else
          var boxes := bs.value.value;
          Ok(base["_boxes" := BoxStrings(Some(seq(|boxes|, i requires 0 <= i < |boxes| => BoxRepr(boxes[i]))))])
    }
  }

  /** Setting boxes and then reading them gives the boxes back as lists. */
  method SetThenGet(config: ModelConfig, boxList: seq<Numbers>) returns (r: Result<Option<seq<Box>>, BoxError>)
    requires forall i :: 0 <= i < |boxList| ==> |boxList[i]| >= 1
    modifies config
    ensures r == Ok(Some(AsLists(boxList)))
  {
    config.SetBoxes(boxList);
    StoredReadsBack(boxList);
    r := config.GetBoxes();
  }

  /**
   * After the setter, `as_dict` holds each box as the string of its list,
   * brackets included, and keeps every other keyword argument.
   */
  lemma AsDictAfterSet(config: ModelConfig, boxList: seq<Numbers>, base: map<string, Kwarg>)
    requires forall i :: 0 <= i < |boxList| ==> |boxList[i]| >= 1
    requires config.boxSetting == Some(Stored(boxList))
    ensures config.AsDict(base).Ok?
    ensures var strings := config.AsDict(base).value["_boxes"].strings;
            strings.Some? && |strings.value| == |boxList| &&
            forall i :: 0 <= i < |boxList| ==> strings.value[i] == ListRepr(boxList[i])
    ensures forall k :: k in base && k != "_boxes" ==> config.AsDict(base).value[k] == base[k]
  {
    StoredReadsBack(boxList);
  }
}
