/** The tables the pipeline passes between its stages (pandas data frames and the CSV files
    they are saved to), reduced to what the stages read from them: rows of named cells. */
module Table {
  import opened Common
  import opened Text

  /** A cell: a missing value (pandas' NaN), an integer, a real number, a text, or a tuple
      (the pocket centre, which stays a tuple in memory and becomes text in a CSV file). */
  datatype Cell = Null | Int(i: int) | Float(x: real) | Str(s: string) | Tuple(items: seq<Cell>)

  /** One row, by column name; a column the table does not have is absent from the map. */
  type Row = map<string, Cell>

  /** `row.get(key, default)`. */
  function Get(row: Row, key: string, default: Cell): (c: Cell)
    ensures key in row ==> c == row[key]
    ensures key !in row ==> c == default
  {
    if key in row then row[key] else default
  }

  /** `pd.notna(cell)`. */
  predicate NotNa(c: Cell) {
    !c.Null?
  }

  /** `float(cell)`: NaN stays NaN, numbers become reals, a text goes through the number
      parser `parse`, and anything else is refused (`None` stands for the exception). */
  function ToFloat(c: Cell, parse: string -> Option<real>): (r: Option<Cell>)
    ensures r.Some? ==> r.value.Null? || r.value.Float?
    ensures c.Null? ==> r == Some(Null)
    ensures c.Float? ==> r == Some(c)
    ensures c.Tuple? ==> r == None
  {
    match c
    case Null => Some(Null)
    case Int(i) => Some(Float(i as real))
    case Float(x) => Some(Float(x))
    case Str(s) => if parse(s).Some? then Some(Float(parse(s).value)) else None
    case Tuple(_) => None
  }

  /** The text `str()` writes for a centre `(x, y, z)`; `fmt` is the float formatter. */
  function CenterText(x: real, y: real, z: real, fmt: real -> string): string {
    "(" + fmt(x) + ", " + fmt(y) + ", " + fmt(z) + ")"
  }

  /** The brackets of a tuple display `( … )` or of a list display `[ … ]`. */
  predicate Bracketed(t: string) {
    |t| >= 2 && ((t[0] == '(' && t[|t| - 1] == ')') || (t[0] == '[' && t[|t| - 1] == ']'))
  }

  /** `ast.literal_eval` on the text of a number, or of a tuple or list of numbers (a list is
      kept as the sequence it unpacks to). Surrounding white space is ignored; inside the
      brackets the items are separated by commas, one trailing comma is allowed, and a single
      parenthesised item without a comma is that number itself. Texts of any other shape are
      refused. */
  function LiteralEval(s: string, parse: string -> Option<real>): (r: Option<Cell>)
    ensures !Bracketed(Strip(s)) ==> r == (if parse(Strip(s)).Some? then Some(Float(parse(Strip(s)).value)) else None)
    ensures Bracketed(Strip(s)) ==> r == DisplayEval(Strip(s), parse)
    ensures r.Some? ==> r.value.Tuple? || r.value.Float?
  {
    var t := Strip(s);
    if !Bracketed(t) then
      if parse(t).Some? then Some(Float(parse(t).value)) else None
    else DisplayEval(t, parse)
  }

  /** A bracketed display: the comma-separated items, one trailing comma allowed; a single
      parenthesised item without a comma is that number itself, and a list is never a number. */
  function DisplayEval(t: string, parse: string -> Option<real>): (r: Option<Cell>)
    requires Bracketed(t)
    ensures r.Some? ==> r.value.Tuple? || (t[0] == '(' && r.value.Float?)
  {
    var inner := t[1..|t| - 1];
    if Strip(inner) == [] then Some(Tuple([]))
    else
      var parts := Split(inner, ',');
      var trailing := |parts| >= 2 && Strip(parts[|parts| - 1]) == [];
      var items := ParseNumbers(if trailing then parts[..|parts| - 1] else parts, parse);
      if items.None? then None
      else if t[0] == '(' && !trailing && |parts| == 1 then Some(items.value[0])
      else Some(Tuple(items.value))
  }

  /** Every piece, stripped, read as a number; `None` as soon as one piece is not a number. */
  function ParseNumbers(parts: seq<string>, parse: string -> Option<real>): (r: Option<seq<Cell>>)
    ensures r.Some? ==> |r.value| == |parts|
  {
    if parts == [] then Some([])
    else
      var head, tail := parse(Strip(parts[0])), ParseNumbers(parts[1..], parse);
      if head.Some? && tail.Some? then Some([Float(head.value)] + tail.value) else None
  }

  /** What a number formatter must do for the centre text to read back: print something
      non-empty, without commas or surrounding space, that the parser maps back to the number. */
  ghost predicate ReadsBack(fmt: real -> string, parse: string -> Option<real>) {
    forall x :: PrintsReadably(fmt, parse, x)
  }

  predicate PrintsReadably(fmt: real -> string, parse: string -> Option<real>, x: real) {
    var t := fmt(x);
    t != [] && parse(t) == Some(x) && !IsSpace(t[0]) && !IsSpace(t[|t| - 1]) &&
      forall k :: 0 <= k < |t| ==> t[k] != ','
  }

  lemma {:induction false} StripTrimmed(a: string)
    requires a != [] && !IsSpace(a[0]) && !IsSpace(a[|a| - 1])
    ensures Strip(a) == a && Strip(" " + a) == a
  {
    assert (" " + a)[1..] == a;
  }

  lemma {:induction false} SplitThree(a: string, b: string, c: string)
    requires forall k :: 0 <= k < |a| ==> a[k] != ','
    requires forall k :: 0 <= k < |b| ==> b[k] != ','
    requires forall k :: 0 <= k < |c| ==> c[k] != ','
    ensures Split(a + [','] + (b + [','] + c), ',') == [a, b, c]
  {
    SplitAt(a, b + [','] + c, ',');
    SplitAt(b, c, ',');
    SplitWhole(c, ',');
  }

  /** The text printed for one number, with or without the space after the comma, has
      no comma in it. */
  lemma {:induction false} NumberHasNoComma(fmt: real -> string, parse: string -> Option<real>, x: real)
    requires ReadsBack(fmt, parse)
    ensures forall k :: 0 <= k < |fmt(x)| ==> fmt(x)[k] != ','
    ensures forall k :: 0 <= k < |" " + fmt(x)| ==> (" " + fmt(x))[k] != ','
  {
    assert PrintsReadably(fmt, parse, x);
    var t := fmt(x);
    assert forall k :: 1 <= k < |" " + t| ==> (" " + t)[k] == t[k - 1];
  }

  /** ... and strips and parses back to the number. */
  lemma {:induction false} NumberReadsBack(fmt: real -> string, parse: string -> Option<real>, x: real)
    requires ReadsBack(fmt, parse)
    ensures parse(Strip(fmt(x))) == Some(x) && parse(Strip(" " + fmt(x))) == Some(x)
  {
    assert PrintsReadably(fmt, parse, x);
    StripTrimmed(fmt(x));
  }

  lemma {:induction false} ParseThree(a: string, b: string, c: string, parse: string -> Option<real>, x: real, y: real, z: real)
    requires parse(Strip(a)) == Some(x) && parse(Strip(b)) == Some(y) && parse(Strip(c)) == Some(z)
    ensures ParseNumbers([a, b, c], parse) == Some([Float(x), Float(y), Float(z)])
  {
    var p1, p2, p3 := [c], [b, c], [a, b, c];
    assert p1[1..] == [] && p1[0] == c;
    var none: seq<string> := [];
    assert ParseNumbers(none, parse) == Some([]);
    assert [Float(z)] + [] == [Float(z)];
    assert ParseNumbers(p1, parse) == Some([Float(z)]);
    assert p2[1..] == p1;
    assert ParseNumbers(p2, parse) == Some([Float(y)] + [Float(z)]);
    assert p3[1..] == p2;
    assert [Float(x)] + ([Float(y)] + [Float(z)]) == [Float(x), Float(y), Float(z)];
  }

  /** A parenthesised text of several comma-separated numbers, without a trailing comma,
      reads as the tuple of those numbers. */
  lemma {:induction false} LiteralEvalTuple(s: string, parse: string -> Option<real>, items: seq<Cell>)
    requires Strip(s) == s && |s| >= 2 && s[0] == '(' && s[|s| - 1] == ')'
    requires Strip(s[1..|s| - 1]) != []
    requires var parts := Split(s[1..|s| - 1], ',');
      |parts| >= 2 && Strip(parts[|parts| - 1]) != [] && ParseNumbers(parts, parse) == Some(items)
    ensures LiteralEval(s, parse) == Some(Tuple(items))
  {
    var inner, parts := s[1..|s| - 1], Split(s[1..|s| - 1], ',');
    assert DisplayEval(s, parse) == Some(Tuple(items));
  }

  /** Text without surrounding white space keeps no white space once parenthesised. */
  lemma {:induction false} ParenthesisedTrimmed(inner: string)
    requires inner != [] && !IsSpace(inner[0]) && !IsSpace(inner[|inner| - 1])
    ensures var s := "(" + inner + ")"; Strip(s) == s && s[1..|s| - 1] == inner && Strip(inner) == inner
  {
    var s := "(" + inner + ")";
    assert s[1..|s| - 1] == inner;
    StripTrimmed(inner);
    StripTrimmed(s);
  }

  /** The centre text is a parenthesised, comma-separated list of the three printed numbers,
      without surrounding white space. */
  lemma {:induction false} CenterTextShape(x: real, y: real, z: real, fmt: real -> string, parse: string -> Option<real>)
    requires PrintsReadably(fmt, parse, x) && PrintsReadably(fmt, parse, z)
    ensures var s, a, b1, c1 := CenterText(x, y, z, fmt), fmt(x), " " + fmt(y), " " + fmt(z);
      Strip(s) == s && |s| >= 2 && s[0] == '(' && s[|s| - 1] == ')' &&
      s[1..|s| - 1] == a + [','] + (b1 + [','] + c1) && Strip(s[1..|s| - 1]) != [] && Strip(c1) != []
  {
    var a, b1, c1 := fmt(x), " " + fmt(y), " " + fmt(z);
    var inner := a + [','] + (b1 + [','] + c1);
    assert inner[0] == a[0] && inner[|inner| - 1] == c1[|c1| - 1] == fmt(z)[|fmt(z)| - 1];
    ParenthesisedTrimmed(inner);
    assert CenterText(x, y, z, fmt) == "(" + inner + ")";
    StripTrimmed(fmt(z));
  }

  /** A centre saved as text reads back as the same three numbers. */
  lemma {:induction false} CenterRoundTrip(x: real, y: real, z: real, fmt: real -> string, parse: string -> Option<real>)
    requires ReadsBack(fmt, parse)
    ensures LiteralEval(CenterText(x, y, z, fmt), parse) == Some(Tuple([Float(x), Float(y), Float(z)]))
  {
    var a, b1, c1 := fmt(x), " " + fmt(y), " " + fmt(z);
    var s := CenterText(x, y, z, fmt);
    assert PrintsReadably(fmt, parse, x) && PrintsReadably(fmt, parse, z);
    CenterTextShape(x, y, z, fmt, parse);
    NumberHasNoComma(fmt, parse, x);
    NumberHasNoComma(fmt, parse, y);
    NumberHasNoComma(fmt, parse, z);
    SplitThree(a, b1, c1);
    NumberReadsBack(fmt, parse, x);
    NumberReadsBack(fmt, parse, y);
    NumberReadsBack(fmt, parse, z);
    ParseThree(a, b1, c1, parse, x, y, z);
    LiteralEvalTuple(s, parse, [Float(x), Float(y), Float(z)]);
  }
}
