/** `Ico.svg_path` (ico.js:47-60): path data in the syntax of section 8.3 of SVG 1.1 ("Path
    Data") from a list mixing command strings and numbers. Strings are copied verbatim, numbers
    are written as `Math.round(v)`, and one space separates two consecutive numbers only. */
module SvgPath {
  import opened Numbers
  import opened Decimal

  /** An element of the list given to `svg_path`: a string, or a number. */
  datatype Token = Command(text: string) | Num(x: real)

  /** The text of one token: the string itself, or the rounded number. */
  function TokenText(t: Token): string
  {
    match t
    case Command(s) => s
    case Num(x) => IntToString(Apply(Round, x))
  }

  /** Whether the last token of a list is a number. */
  predicate EndsWithNumber(tokens: seq<Token>)
  {
    |tokens| > 0 && tokens[|tokens| - 1].Num?
  }

  /** The path text of a list, built from its last token backwards: the text of the list
      without its last token, a space when that token and the one before it are both numbers,
      and the token's text. */
  function PathText(tokens: seq<Token>): string
  {
    if tokens == [] then ""
    else
      var init, last := tokens[..|tokens| - 1], tokens[|tokens| - 1];
      PathText(init) + (if last.Num? && EndsWithNumber(init) then " " else "") + TokenText(last)
  }

  /** The same text built from the first token forwards, given whether a number came before. */
  function FrontText(tokens: seq<Token>, afterNumber: bool): string
  {
    if tokens == [] then ""
    else
      (if tokens[0].Num? && afterNumber then " " else "") + TokenText(tokens[0])
        + FrontText(tokens[1..], tokens[0].Num?)
  }

  /** The loop of ico.js:49-58, with its `previous_isNumber` flag. */
  method SvgPathText(a: seq<Token>) returns (path: string)
    ensures path == PathText(a)
  {
    path := "";
    var previousIsNumber := false;
    for i := 0 to |a|
      invariant path == PathText(a[..i])
      invariant previousIsNumber == EndsWithNumber(a[..i])
    {
      PathTextStep(a, i);
      hide *;
      match a[i]
      case Num(x) =>
        NumberText(x);
        path := path + (if previousIsNumber then " " else "") + IntToString(Apply(Round, x));
        previousIsNumber := true;
      case Command(s) =>
        assert path + "" == path;
        path := path + s;
        previousIsNumber := false;
    }
    assert a[..|a|] == a;
  }

  /** A number token's text is its rounded value. */
  lemma NumberText(x: real)
    ensures TokenText(Num(x)) == IntToString(Apply(Round, x))
  {}

  /** One more token: the text grows by the separator and the token's text. */
  lemma PathTextStep(a: seq<Token>, i: nat)
    requires i < |a|
    ensures PathText(a[..i + 1]) == PathText(a[..i])
      + (if a[i].Num? && EndsWithNumber(a[..i]) then " " else "") + TokenText(a[i])
    ensures EndsWithNumber(a[..i + 1]) == a[i].Num?
  {
    assert a[..i + 1][..i] == a[..i];
  }

  /** The path text of a + b is that of a followed by that of b read forwards, given whether
      a ended with a number. */
  lemma {:induction false} PathTextSplit(a: seq<Token>, b: seq<Token>)
    ensures PathText(a + b) == PathText(a) + FrontText(b, EndsWithNumber(a))
    decreases |b|
  {
    hide TokenText;
    if b == [] {
      assert a + b == a;
    } else {
      var a' := a + [b[0]];
      assert a + b == a' + b[1..];
      PathTextSplit(a', b[1..]);
      assert a'[..|a'| - 1] == a;
      assert PathText(a') == PathText(a) + (if b[0].Num? && EndsWithNumber(a) then " " else "")
        + TokenText(b[0]);
    }
  }

  /** The forwards and backwards definitions agree. */
  lemma PathTextForwards(a: seq<Token>)
    ensures PathText(a) == FrontText(a, false)
  {
    PathTextSplit([], a);
    assert [] + a == a;
  }

  /** Pieces that start with a command can be serialised separately and concatenated: this is
      what `draw_serie` relies on when it appends one `svg_path` per sample (ico.js:520). */
  lemma PathTextConcat(a: seq<Token>, b: seq<Token>)
    requires b == [] || b[0].Command?
    ensures PathText(a + b) == PathText(a) + PathText(b)
  {
    PathTextSplit(a, b);
    PathTextForwards(b);
  }

  /** The example of the path data syntax: ['M', 1.4, 2.6, 'L', 3, 4] gives "M1 3L3 4". */
  lemma PathTextExample()
    ensures PathText([Command("M"), Num(1.4), Num(2.6), Command("L"), Num(3.0), Num(4.0)]) == "M1 3L3 4"
  {
    var a := [Command("M"), Num(1.4), Num(2.6), Command("L"), Num(3.0), Num(4.0)];
    PathTextForwards(a);
    assert Apply(Round, 1.4) == 1 && Apply(Round, 2.6) == 3;
    assert Apply(Round, 3.0) == 3 && Apply(Round, 4.0) == 4;
    assert IntToString(1) == "1" && IntToString(3) == "3" && IntToString(4) == "4";
    assert a[1..][1..][1..][1..][1..][1..] == [];
  }
}
