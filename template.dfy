/**
 * Message personalisation: the `${column}` placeholders of a template are
 * replaced by a spreadsheet row's cell values, one column at a time in the
 * row's key order, and the HTML body is the result with every line break
 * turned into `<br>`.
 *
 * The source builds a regular expression `\$\{key\}` without escaping `key`
 * and hands the cell value to `String.prototype.replace`; this model performs
 * the literal token replacement that was meant: a column name with regular
 * expression metacharacters, and `$&` or `$1` inside a value, behave
 * differently in the source.
 */
module Template {
  import opened Wrappers
  import opened Text

  /** A cell value as the spreadsheet parser delivers it. */
  datatype Value = Str(text: string) | Number(n: int) | Bool(b: bool)

  datatype Cell = Cell(key: string, value: Value)

  /** One parsed row: its cells in `Object.keys` order. */
  type Row = seq<Cell>

  function Keys(row: Row): (keys: seq<string>)
    ensures |keys| == |row|
    ensures forall i :: 0 <= i < |row| ==> keys[i] == row[i].key
  {
    if row == [] then [] else [row[0].key] + Keys(row[1..])
  }

  /** `row[key]`: the value of the first cell named `key`, if any. */
  function Lookup(row: Row, key: string): (v: Option<Value>)
    ensures v.None? <==> forall i :: 0 <= i < |row| ==> row[i].key != key
    ensures v.Some? ==> exists i :: 0 <= i < |row| && row[i] == Cell(key, v.value)
  {
    if row == [] then None
    else if row[0].key == key then Some(row[0].value)
    else Lookup(row[1..], key)
  }

  /** The values JavaScript treats as false: the empty string, zero and `false`. */
  predicate Falsy(v: Value) {
    match v
    case Str(t) => t == ""
    case Number(n) => n == 0
    case Bool(b) => !b
  }

  /** `String(v)`, the text a template literal such as `${recipient.email}` produces. */
  function ValueText(v: Value): string {
    match v
    case Str(t) => t
    case Number(n) => IntToDecimal(n)
    case Bool(b) => if b then "true" else "false"
  }

  /** `row[key] || ""`: what a placeholder is replaced by. */
  function Substitute(v: Value): (r: string)
    ensures r == "" <==> Falsy(v)
    ensures !Falsy(v) ==> r == ValueText(v)
  {
    if Falsy(v) then "" else ValueText(v)
  }

  /** The token `${key}` that names column `key` in a template. */
  function Placeholder(key: string): string {
    "${" + key + "}"
  }

  /** A global, literal `replace`: the leftmost occurrence of `pattern` is replaced,
      the scan resumes after it, and a character that starts no occurrence is kept. */
  function ReplaceAll(s: string, pattern: string, replacement: string): string
    requires |pattern| > 0
    decreases |s|
  {
    if s == [] then []
    else if pattern <= s then replacement + ReplaceAll(s[|pattern|..], pattern, replacement)
    else [s[0]] + ReplaceAll(s[1..], pattern, replacement)
  }

  /** The personalised message for one row: each key, in order, replaces all of its
      placeholders in the text the previous keys left behind. */
  function Render(template: string, row: Row): string
    decreases |row|
  {
    if row == [] then template
    else Render(ReplaceAll(template, Placeholder(row[0].key), Substitute(row[0].value)), row[1..])
  }

  /** Builds the personalised message by reassigning it once per key, as the loops at
      both call sites do. */
  method Personalize(template: string, row: Row) returns (message: string)
    ensures message == Render(template, row)
  {
    message := template;
    var i := 0;
    while i < |row|
      invariant 0 <= i <= |row|
      invariant Render(message, row[i..]) == Render(template, row)
    {
      assert row[i..][1..] == row[i + 1..];
      message := ReplaceAll(message, Placeholder(row[i].key), Substitute(row[i].value));
      i := i + 1;
    }
    assert row[i..] == [];
  }

  /** The HTML body of a mail: the text with every line feed replaced by `<br>`. */
  function HtmlBody(text: string): string {
    ReplaceAll(text, "\n", "<br>")
  }

  /** A character-by-character rewrite, the reference meaning of replacing a
      one-character pattern. */
  function MapChar(s: string, c: char, replacement: string): (r: string)
    ensures (forall i :: 0 <= i < |s| ==> s[i] != c) ==> r == s
    ensures (forall i :: 0 <= i < |replacement| ==> replacement[i] != c) ==> forall i :: 0 <= i < |r| ==> r[i] != c
  {
    if s == [] then []
    else (if s[0] == c then replacement else [s[0]]) + MapChar(s[1..], c, replacement)
  }

  lemma {:induction false} ReplaceCharIsMap(s: string, c: char, replacement: string)
    ensures ReplaceAll(s, [c], replacement) == MapChar(s, c, replacement)
  {
    if s != [] {
      assert [c] <= s <==> s[0] == c;
      ReplaceCharIsMap(s[1..], c, replacement);
    }
  }

  /** The HTML body has no line feed left, and a one-line text is its own HTML body. */
  lemma HtmlBodyHasNoLineFeed(text: string)
    ensures forall i :: 0 <= i < |HtmlBody(text)| ==> HtmlBody(text)[i] != '\n'
    ensures (forall i :: 0 <= i < |text| ==> text[i] != '\n') ==> HtmlBody(text) == text
  {
    ReplaceCharIsMap(text, '\n', "<br>");
  }

  // A template seen as literal text and placeholders.

  /** A template fragment: literal text, or the placeholder of one column. */
  datatype Piece = Lit(text: string) | Hole(name: string)

  function PieceText(p: Piece): string {
    match p
    case Lit(t) => t
    case Hole(n) => Placeholder(n)
  }

  function Flatten(ps: seq<Piece>): string {
    if ps == [] then [] else PieceText(ps[0]) + Flatten(ps[1..])
  }

  predicate NoDollar(s: string) {
    forall i :: 0 <= i < |s| ==> s[i] != '$'
  }

  /** A column name that can neither start nor close a placeholder. */
  predicate PlainName(n: string) {
    NoDollar(n) && forall i :: 0 <= i < |n| ==> n[i] != '}'
  }

  predicate PlainPiece(p: Piece) {
    match p
    case Lit(t) => NoDollar(t)
    case Hole(n) => PlainName(n)
  }

  predicate Plain(ps: seq<Piece>) {
    forall i :: 0 <= i < |ps| ==> PlainPiece(ps[i])
  }

  /** A row whose column names are plain and whose substituted values hold no `$`. */
  predicate PlainRow(row: Row) {
    forall i :: 0 <= i < |row| ==> PlainName(row[i].key) && NoDollar(Substitute(row[i].value))
  }

  function FillPiece(p: Piece, row: Row): Piece {
    match p
    case Lit(_) => p
    case Hole(n) =>
      match Lookup(row, n)
      case None => p
      case Some(v) => Lit(Substitute(v))
  }

  /** The reference meaning of rendering: every placeholder of a column of the row
      becomes that column's substituted value; every other fragment stays as it is. */
  function Fill(ps: seq<Piece>, row: Row): seq<Piece> {
    seq(|ps|, i requires 0 <= i < |ps| => FillPiece(ps[i], row))
  }

  lemma {:induction false} ReplaceAllSkipsLiteral(t: string, rest: string, pattern: string, replacement: string)
    requires |pattern| > 0 && pattern[0] == '$' && NoDollar(t)
    ensures ReplaceAll(t + rest, pattern, replacement) == t + ReplaceAll(rest, pattern, replacement)
  {
    if t == [] {
      assert t + rest == rest;
    } else {
      var s := t + rest;
      assert s[0] == t[0] != '$';
      assert !(pattern <= s);
      assert s[1..] == t[1..] + rest;
      ReplaceAllSkipsLiteral(t[1..], rest, pattern, replacement);
      assert [t[0]] + t[1..] == t;
    }
  }

  /** The placeholder of `key` does not start where the placeholder of another plain
      column stands. */
  lemma OtherPlaceholderIsNoMatch(name: string, key: string, rest: string)
    requires PlainName(name) && PlainName(key) && name != key
    ensures !(Placeholder(key) <= Placeholder(name) + rest)
  {
    var p, s := Placeholder(key), Placeholder(name) + rest;
    if |key| < |name| {
      assert p[|key| + 2] != s[|key| + 2];
    } else if |key| > |name| {
      assert p[|name| + 2] != s[|name| + 2];
    } else {
      assert p[2..2 + |key|] == key && s[2..2 + |name|] == name;
    }
  }

  lemma FillTail(ps: seq<Piece>, row: Row)
    requires ps != []
    ensures Fill(ps, row)[0] == FillPiece(ps[0], row)
    ensures Fill(ps, row)[1..] == Fill(ps[1..], row)
  {
  }

  /** The placeholder of the replaced column is replaced, and the scan resumes after it. */
  lemma OwnPlaceholderIsReplaced(key: string, rest: string, replacement: string)
    ensures ReplaceAll(Placeholder(key) + rest, Placeholder(key), replacement)
            == replacement + ReplaceAll(rest, Placeholder(key), replacement)
  {
    var pattern := Placeholder(key);
    var s := pattern + rest;
    assert pattern <= s;
    assert s[|pattern|..] == rest;
  }

  /** The placeholder of another plain column is kept, character for character. */
  lemma OtherPlaceholderIsKept(name: string, key: string, rest: string, replacement: string)
    requires PlainName(name) && PlainName(key) && name != key
    ensures ReplaceAll(Placeholder(name) + rest, Placeholder(key), replacement)
            == Placeholder(name) + ReplaceAll(rest, Placeholder(key), replacement)
  {
    var pattern := Placeholder(key);
    var s := Placeholder(name) + rest;
    OtherPlaceholderIsNoMatch(name, key, rest);
    var tail := "{" + name + "}";
    assert s[0] == '$' && s[1..] == tail + rest;
    assert NoDollar(tail) by { assert forall i :: 1 <= i < |tail| - 1 ==> tail[i] == name[i - 1]; }
    ReplaceAllSkipsLiteral(tail, rest, pattern, replacement);
    assert Placeholder(name) == ['$'] + tail;
  }

  /** One fragment of a plain template under one global replacement: the fragment
      comes out filled and the scan goes on with the text after it. */
  lemma ReplaceAllOverPiece(p: Piece, rest: string, key: string, v: Value)
    requires PlainPiece(p) && PlainName(key)
    ensures ReplaceAll(PieceText(p) + rest, Placeholder(key), Substitute(v))
            == PieceText(FillPiece(p, [Cell(key, v)])) + ReplaceAll(rest, Placeholder(key), Substitute(v))
  {
    match p
    case Lit(t) =>
      ReplaceAllSkipsLiteral(t, rest, Placeholder(key), Substitute(v));
    case Hole(n) =>
      if n == key {
        OwnPlaceholderIsReplaced(key, rest, Substitute(v));
      } else {
        OtherPlaceholderIsKept(n, key, rest, Substitute(v));
      }
  }

  /** One global replacement on a plain template replaces exactly the placeholders of
      that key, every one of them, and nothing else. */
  lemma {:induction false} ReplaceAllFills(ps: seq<Piece>, key: string, v: Value)
    requires Plain(ps) && PlainName(key)
    ensures ReplaceAll(Flatten(ps), Placeholder(key), Substitute(v)) == Flatten(Fill(ps, [Cell(key, v)]))
  {
    var row := [Cell(key, v)];
    if ps != [] {
      FillTail(ps, row);
      assert Plain(ps[1..]) by { assert forall i :: 0 <= i < |ps| - 1 ==> ps[1..][i] == ps[i + 1]; }
      ReplaceAllFills(ps[1..], key, v);
      assert PlainPiece(ps[0]);
      ReplaceAllOverPiece(ps[0], Flatten(ps[1..]), key, v);
    }
  }

  lemma FillTwice(ps: seq<Piece>, row: Row)
    requires row != []
    ensures Fill(Fill(ps, [row[0]]), row[1..]) == Fill(ps, row)
  {
    forall i | 0 <= i < |ps|
      ensures FillPiece(FillPiece(ps[i], [row[0]]), row[1..]) == FillPiece(ps[i], row)
    {
      assert Lookup([row[0]], row[0].key) == Some(row[0].value);
    }
  }

  /** Rendering a plain template with a plain row fills every placeholder of every
      column of the row with that column's substituted value (the empty string for a
      falsy one), and leaves the literal text and the placeholders of columns the row
      does not have exactly as they were. */
  lemma {:induction false} RenderFills(ps: seq<Piece>, row: Row)
    requires Plain(ps) && PlainRow(row)
    ensures Render(Flatten(ps), row) == Flatten(Fill(ps, row))
    decreases |row|
  {
    if row == [] {
      assert Fill(ps, row) == ps;
    } else {
      var c := row[0];
      var once := Fill(ps, [c]);
      ReplaceAllFills(ps, c.key, c.value);
      assert Plain(once) by {
        forall i | 0 <= i < |once| ensures PlainPiece(once[i]) {
          assert PlainPiece(ps[i]);
          if ps[i].Hole? && ps[i].name == c.key {
            assert Lookup([c], c.key) == Some(c.value);
          }
        }
      }
      assert PlainRow(row[1..]) by {
        forall i | 0 <= i < |row| - 1 ensures PlainName(row[1..][i].key) && NoDollar(Substitute(row[1..][i].value)) {
          assert row[1..][i] == row[i + 1];
        }
      }
      RenderFills(once, row[1..]);
      FillTwice(ps, row);
    }
  }

  /** The template of the worked examples, as fragments. */
  function Greeting(): seq<Piece> {
    [Lit("Hi "), Hole("name"), Lit(", code "), Hole("id")]
  }

  lemma FlattenFour(a: Piece, b: Piece, c: Piece, d: Piece)
    ensures Flatten([a, b, c, d]) == PieceText(a) + PieceText(b) + PieceText(c) + PieceText(d)
  {
    assert [d][1..] == [];
    assert Flatten([d]) == PieceText(d);
    assert [c, d][1..] == [d];
    assert Flatten([c, d]) == PieceText(c) + PieceText(d);
    assert [b, c, d][1..] == [c, d];
    assert Flatten([b, c, d]) == PieceText(b) + (PieceText(c) + PieceText(d));
    assert [a, b, c, d][1..] == [b, c, d];
  }

  lemma GreetingText()
    ensures Plain(Greeting())
    ensures Flatten(Greeting()) == "Hi ${name}, code ${id}"
  {
    assert "Hi " + Placeholder("name") + ", code " + Placeholder("id") == "Hi ${name}, code ${id}";
    var ps := Greeting();
    assert PlainPiece(ps[0]) && PlainPiece(ps[1]) && PlainPiece(ps[2]) && PlainPiece(ps[3]);
    FlattenFour(Lit("Hi "), Hole("name"), Lit(", code "), Hole("id"));
  }

  /** Filling the greeting with a name and a second value. */
  lemma FillGreeting(row: Row, name: string, id: Option<Value>)
    requires Lookup(row, "name") == Some(Str(name)) && name != ""
    requires Lookup(row, "id") == id
    ensures Flatten(Fill(Greeting(), row))
            == "Hi " + name + ", code " + (if id.Some? then Substitute(id.value) else Placeholder("id"))
  {
    var last := FillPiece(Hole("id"), row);
    assert Fill(Greeting(), row) == [Lit("Hi "), Lit(name), Lit(", code "), last];
    FlattenFour(Lit("Hi "), Lit(name), Lit(", code "), last);
  }

  /** The worked example: every placeholder of the row is filled. */
  lemma GreetingExample()
    ensures Render("Hi ${name}, code ${id}", [Cell("name", Str("Ana")), Cell("id", Str("42"))])
            == "Hi Ana, code 42"
  {
    assert "Hi " + "Ana" + ", code " + "42" == "Hi Ana, code 42";
    var row := [Cell("name", Str("Ana")), Cell("id", Str("42"))];
    GreetingText();
    assert PlainRow(row);
    RenderFills(Greeting(), row);
    assert Substitute(Str("42")) == "42";
    FillGreeting(row, "Ana", Some(Str("42")));
  }

  /** A column the row does not have leaves its placeholder in place. */
  lemma MissingColumnIsKept()
    ensures Render("Hi ${name}, code ${id}", [Cell("name", Str("Ana"))]) == "Hi Ana, code ${id}"
  {
    assert "Hi " + "Ana" + ", code " + Placeholder("id") == "Hi Ana, code ${id}";
    GreetingText();
    var row := [Cell("name", Str("Ana"))];
    assert PlainRow(row);
    RenderFills(Greeting(), row);
    FillGreeting(row, "Ana", None);
  }

  /** A falsy cell (here the number zero) is replaced by nothing. */
  lemma FalsyCellIsDropped()
    ensures Render("Hi ${name}, code ${id}", [Cell("name", Str("Ana")), Cell("id", Number(0))])
            == "Hi Ana, code "
  {
    assert "Hi " + "Ana" + ", code " + "" == "Hi Ana, code ";
    GreetingText();
    var row := [Cell("name", Str("Ana")), Cell("id", Number(0))];
    assert PlainRow(row);
    RenderFills(Greeting(), row);
    assert Substitute(Number(0)) == "";
    FillGreeting(row, "Ana", Some(Number(0)));
  }

  /** A text that is exactly the placeholder of `key` becomes the replacement. */
  lemma WholePlaceholderReplaced(key: string, replacement: string)
    ensures ReplaceAll(Placeholder(key), Placeholder(key), replacement) == replacement
  {
    OwnPlaceholderIsReplaced(key, [], replacement);
    assert Placeholder(key) + [] == Placeholder(key);
  }

  /** Keys are applied in order, each to the text the earlier ones produced: a value
      that itself holds `${b}` is rewritten when column `b` comes later... */
  lemma LaterKeyRewritesValue()
    ensures Render("${a}", [Cell("a", Str("${b}")), Cell("b", Str("X"))]) == "X"
  {
    var row := [Cell("a", Str("${b}")), Cell("b", Str("X"))];
    assert Placeholder("a") == "${a}" && Placeholder("b") == "${b}";
    assert Substitute(Str("${b}")) == "${b}" && Substitute(Str("X")) == "X";
    WholePlaceholderReplaced("a", "${b}");
    WholePlaceholderReplaced("b", "X");
    assert row[1..] == [Cell("b", Str("X"))];
    assert Render("${b}", row[1..]) == Render("X", []);
  }

  /** ...and kept when it came earlier. */
  lemma EarlierKeyKeepsValue()
    ensures Render("${a}", [Cell("b", Str("X")), Cell("a", Str("${b}"))]) == "${b}"
  {
    var row := [Cell("b", Str("X")), Cell("a", Str("${b}"))];
    assert Placeholder("a") == "${a}";
    assert Substitute(Str("${b}")) == "${b}" && Substitute(Str("X")) == "X";
    assert PlainName("a") && PlainName("b");
    OtherPlaceholderIsKept("a", "b", [], "X");
    assert Placeholder("a") + [] == Placeholder("a");
    WholePlaceholderReplaced("a", "${b}");
    assert row[1..] == [Cell("a", Str("${b}"))];
    assert Render("${a}", row[1..]) == Render("${b}", []);
  }
}
