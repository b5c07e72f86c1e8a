/** Printing in the TOML subset, and the proof that parsing reads back exactly what was printed. */
module TomlRoundTrip {
  import opened Wrappers
  import opened Toml

  /** A string with the quotes it is written in; Plain is a bare key. */
  datatype Text = Plain(text: string) | Quoted(text: string) | Raw(text: string)

  datatype Scalar = Line(t: Text) | Whole(n: int) | Flag(b: bool)

  datatype Entry = Entry(key: Text, value: Scalar)

  datatype Value = One(v: Scalar) | Many(items: seq<Scalar>) | Inline(entries: seq<Entry>)

  /** One line; a section or a setting may be followed by a remark. */
  datatype Item =
    | Blank
    | Comment(text: string)
    | Section(path: seq<Text>)
    | Setting(key: Text, value: Value)
    | Noted(line: Item, note: string)

  // ---------------------------------------------------------------- what can be printed

  predicate OneLine(s: string) {
    '\n' !in s && '\r' !in s
  }

  /** Any string can be quoted; a raw one has no single quote and no line end, a bare one only key characters. */
  predicate TextOk(t: Text) {
    match t
    case Plain(s) => s != "" && forall i :: 0 <= i < |s| ==> IsBare(s[i])
    case Quoted(_) => true
    case Raw(s) => '\'' !in s && OneLine(s)
  }

  predicate ScalarOk(v: Scalar) {
    match v
    case Line(t) => TextOk(t) && !t.Plain?
    case Whole(n) => -INT64_LIMIT <= n < INT64_LIMIT
    case Flag(_) => true
  }

  predicate EntryOk(e: Entry) {
    TextOk(e.key) && ScalarOk(e.value)
  }

  predicate ValueOk(v: Value) {
    match v
    case One(s) => ScalarOk(s)
    case Many(items) => forall i :: 0 <= i < |items| ==> ScalarOk(items[i])
    case Inline(es) => forall i :: 0 <= i < |es| ==> EntryOk(es[i])
  }

  predicate ItemOk(i: Item) {
    match i
    case Blank => true
    case Comment(s) => OneLine(s)
    case Section(path) => path != [] && forall k :: 0 <= k < |path| ==> TextOk(path[k])
    case Setting(key, value) => TextOk(key) && ValueOk(value)
    case Noted(line, note) => (line.Section? || line.Setting?) && ItemOk(line) && OneLine(note)
  }

  // ---------------------------------------------------------------- printing

  function EscapeChar(c: char): string {
    if c == '"' then "\\\"" else if c == '\\' then "\\\\" else if c == '\n' then "\\n" else if c == '\r' then "\\r"
    else if c == '\t' then "\\t" else if c == BACKSPACE then "\\b" else if c == FORM_FEED then "\\f" else [c]
  }

  function Escape(s: string): string {
    if s == "" then "" else EscapeChar(s[0]) + Escape(s[1..])
  }

  function PrintText(t: Text): string {
    match t
    case Plain(s) => s
    case Quoted(s) => "\"" + Escape(s) + "\""
    case Raw(s) => "'" + s + "'"
  }

  function Digits(n: nat): (s: string)
    ensures AllDigits(s)
  {
    if n < 10 then [('0' as int + n) as char] else Digits(n / 10) + [('0' as int + n % 10) as char]
  }

  function PrintInt(n: int): string {
    if n < 0 then "-" + Digits(-n) else Digits(n)
  }

  function PrintScalar(v: Scalar): string {
    match v
    case Line(t) => PrintText(t)
    case Whole(n) => PrintInt(n)
    case Flag(b) => if b then "true" else "false"
  }

  /** Pieces separated by a comma and a space. */
  function Commas(parts: seq<string>): string {
    if parts == [] then "" else if |parts| == 1 then parts[0] else parts[0] + "," + " " + Commas(parts[1..])
  }

  function PrintEntry(e: Entry): string {
    PrintText(e.key) + " " + "=" + " " + PrintScalar(e.value)
  }

  function PrintScalars(items: seq<Scalar>): (parts: seq<string>)
    ensures |parts| == |items|
  {
    if items == [] then [] else [PrintScalar(items[0])] + PrintScalars(items[1..])
  }

  function PrintEntries(es: seq<Entry>): (parts: seq<string>)
    ensures |parts| == |es|
  {
    if es == [] then [] else [PrintEntry(es[0])] + PrintEntries(es[1..])
  }

  function PrintValue(v: Value): string {
    match v
    case One(s) => PrintScalar(s)
    case Many(items) => "[" + Commas(PrintScalars(items)) + "]"
    case Inline(es) => "{" + Commas(PrintEntries(es)) + "}"
  }

  function PrintPath(path: seq<Text>): string
    requires path != []
  {
    if |path| == 1 then PrintText(path[0]) else PrintText(path[0]) + "." + PrintPath(path[1..])
  }

  function PrintItem(i: Item): string
    requires ItemOk(i)
  {
    match i
    case Blank => ""
    case Comment(s) => "#" + s
    case Section(path) => "[" + PrintPath(path) + "]"
    case Setting(key, value) => PrintText(key) + " " + "=" + " " + PrintValue(value)
    case Noted(line, note) => PrintItem(line) + " #" + note
  }

  function Print(items: seq<Item>): string
    requires forall i :: 0 <= i < |items| ==> ItemOk(items[i])
  {
    if items == [] then "" else PrintItem(items[0]) + "\n" + Print(items[1..])
  }

  // ---------------------------------------------------------------- what was printed, as parsed values

  function ScalarNode(v: Scalar): Node {
    match v
    case Line(t) => Str(t.text)
    case Whole(n) => Int(n)
    case Flag(b) => Bool(b)
  }

  function Nodes(items: seq<Scalar>): seq<Node> {
    if items == [] then [] else [ScalarNode(items[0])] + Nodes(items[1..])
  }

  /** The entries of an inline table, unless a key occurs twice. */
  function Fields(es: seq<Entry>, sofar: map<string, Node>): Option<map<string, Node>> {
    if es == [] then Some(sofar)
    else if es[0].key.text in sofar then None
    else Fields(es[1..], sofar[es[0].key.text := ScalarNode(es[0].value)])
  }

  function ValueNode(v: Value): Option<Node> {
    match v
    case One(s) => Some(ScalarNode(s))
    case Many(items) => Some(Arr(Nodes(items)))
    case Inline(es) => var f := Fields(es, map[]); if f.Some? then Some(Table(f.value)) else None
  }

  function Segments(path: seq<Text>): seq<string> {
    if path == [] then [] else [path[0].text] + Segments(path[1..])
  }

  function Meaning(i: Item): Option<Content> {
    match i
    case Blank => Some(Nothing)
    case Comment(_) => Some(Nothing)
    case Section(path) => Some(Header(Segments(path)))
    case Setting(key, value) =>
      var v := ValueNode(value);
      if v.Some? then Some(Assign(key.text, v.value)) else None
    case Noted(line, _) => Meaning(line)
  }

  function Meanings(items: seq<Item>): seq<Option<Content>> {
    if items == [] then [] else [Meaning(items[0])] + Meanings(items[1..])
  }

  // ---------------------------------------------------------------- strings read back

  lemma {:induction false} ScanEscaped(s: string, rest: string)
    ensures ScanBody(Escape(s) + "\"" + rest) == Some((s, rest))
    decreases |s|
  {
    if s == "" {
      assert Escape(s) + "\"" + rest == "\"" + rest;
      assert ("\"" + rest)[1..] == rest;
    } else {
      var tail := Escape(s[1..]) + "\"" + rest;
      ScanEscaped(s[1..], rest);
      var e := EscapeChar(s[0]);
      assert Escape(s) + "\"" + rest == e + tail;
      EscapedChar(s[0], tail);
      assert s == [s[0]] + s[1..];
    }
  }

  lemma EscapeKinds(c: char)
    ensures var e := EscapeChar(c);
            || (e == [c] && c != '"' && c != '\\')
            || (|e| == 2 && e[0] == '\\' && e[1] != 'u' && e[1] != 'U' && Unescape(e[1]) == Some(c))
  {
  }

  lemma EscapedPair(e: string, c: char, tail: string)
    requires |e| == 2 && e[0] == '\\' && e[1] != 'u' && e[1] != 'U' && Unescape(e[1]) == Some(c)
    ensures ScanBody(e + tail) == Prefixed(c, ScanBody(tail))
  {
    hide Unescape;
    var s := e + tail;
    assert s[0] == e[0] && s[1] == e[1] && s[2..] == tail;
  }

  lemma EscapedChar(c: char, tail: string)
    ensures ScanBody(EscapeChar(c) + tail) == Prefixed(c, ScanBody(tail))
  {
    EscapeKinds(c);
    hide EscapeChar, Unescape;
    var e := EscapeChar(c);
    if |e| == 2 {
      EscapedPair(e, c, tail);
    } else {
      assert (e + tail)[0] == c && (e + tail)[1..] == tail;
    }
  }

  /** The character after a printed string is not a quote. */
  predicate Apart(rest: string) {
    rest == "" || (rest[0] != '"' && rest[0] != '\'')
  }

  lemma EscapeShape(s: string)
    ensures s == "" ==> Escape(s) == ""
    ensures s != "" ==> Escape(s) != "" && Escape(s)[0] != '"'
  {
  }

  lemma ScanQuoted(s: string, rest: string)
    requires Apart(rest)
    ensures var t := "\"" + Escape(s) + "\"" + rest; t[0] == '"' && ScanBasic(t) == Some((s, rest))
  {
    var t := "\"" + Escape(s) + "\"" + rest;
    ScanEscaped(s, rest);
    EscapeShape(s);
    hide Escape, ScanBody;
    assert t[1..] == Escape(s) + "\"" + rest;
    if s == "" {
      assert t == "\"\"" + rest;
      assert |t| > 2 ==> t[2] == rest[0];
    } else {
      assert t[1] == Escape(s)[0];
    }
  }

  lemma {:induction false} FindByteAt(s: string, c: char, rest: string)
    requires c !in s
    ensures FindByte(s + [c] + rest, c) == |s|
    decreases |s|
  {
    var t := s + [c] + rest;
    if s != "" {
      assert t[1..] == s[1..] + [c] + rest;
      FindByteAt(s[1..], c, rest);
    }
  }

  lemma ScanRaw(s: string, rest: string)
    requires '\'' !in s && Apart(rest)
    ensures var t := "'" + s + "'" + rest; t[0] == '\'' && ScanLiteral(t) == Some((s, rest))
  {
    var t := "'" + s + "'" + rest;
    assert t[1..] == s + ['\''] + rest;
    FindByteAt(s, '\'', rest);
    assert t[1..1 + |s|] == s && t[2 + |s|..] == rest;
    if s == "" {
      assert |t| > 2 ==> t[2] == rest[0];
    } else {
      assert t[1] == s[0];
    }
  }

  lemma {:induction false} BareRun(s: string, rest: string)
    requires forall i :: 0 <= i < |s| ==> IsBare(s[i])
    requires rest == "" || !IsBare(rest[0])
    ensures BareLength(s + rest) == |s|
    decreases |s|
  {
    if s == "" {
      assert s + rest == rest;
    } else {
      assert (s + rest)[1..] == s[1..] + rest;
      BareRun(s[1..], rest);
    }
  }

  /** A printed key is read back, whatever ordinary text follows. */
  lemma SegRead(t: Text, rest: string)
    requires TextOk(t) && Apart(rest) && (rest == "" || !IsBare(rest[0]))
    ensures PrintText(t) != "" && ScanKeySeg(PrintText(t) + rest) == Some((t.text, rest))
  {
    match t
    case Plain(s) =>
      BareRun(s, rest);
      assert (s + rest)[0] == s[0];
      assert (s + rest)[..|s|] == s && (s + rest)[|s|..] == rest;
    case Quoted(s) => ScanQuoted(s, rest);
    case Raw(s) => ScanRaw(s, rest);
  }

  lemma SegSolid(t: Text)
    requires TextOk(t)
    ensures Solid(PrintText(t)) && PrintText(t)[0] != '[' && PrintText(t)[0] != '#'
  {
  }

  lemma KeyRead(t: Text)
    requires TextOk(t)
    ensures SingleKey(PrintText(t)) == Some(t.text)
  {
    SegRead(t, "");
    assert PrintText(t) + "" == PrintText(t);
  }

  // ---------------------------------------------------------------- printed text is quiet

  lemma QuietChar(e: string, tail: string, sep: char)
    requires Quiet(tail, sep, InBasic)
    requires (|e| == 1 && e[0] != '"' && e[0] != '\\') || (|e| == 2 && e[0] == '\\')
    ensures Quiet(e + tail, sep, InBasic)
  {
    var t := e + tail;
    assert t[0] == e[0];
    if |e| == 2 {
      assert t[1..][0] == e[1] && t[1..][1..] == tail;
      assert Quiet(t[1..], sep, InEscape);
    } else {
      assert t[1..] == tail;
    }
  }

  lemma {:induction false} EscapedQuiet(s: string, rest: string, sep: char)
    requires Quiet(rest, sep, InBasic)
    ensures Quiet(Escape(s) + rest, sep, InBasic)
    decreases |s|
  {
    hide Quiet, EscapeChar;
    if s == "" {
      assert Escape(s) + rest == rest;
    } else {
      EscapedQuiet(s[1..], rest, sep);
      EscapeKinds(s[0]);
      assert Escape(s) + rest == EscapeChar(s[0]) + (Escape(s[1..]) + rest);
      QuietChar(EscapeChar(s[0]), Escape(s[1..]) + rest, sep);
    }
  }

  lemma {:induction false} RawQuiet(s: string, sep: char)
    requires '\'' !in s
    ensures Quiet(s + "'", sep, InLiteral)
    decreases |s|
  {
    if s == "" {
      assert s + "'" == "'";
      assert "'"[1..] == "";
    } else {
      assert (s + "'")[1..] == s[1..] + "'";
      RawQuiet(s[1..], sep);
    }
  }

  /** No character of the text is the separator or a quote. */
  lemma {:induction false} OrdinaryQuiet(s: string, sep: char)
    requires sep !in s && '"' !in s && '\'' !in s
    ensures Quiet(s, sep, Outside)
    decreases |s|
  {
    if s != "" {
      OrdinaryQuiet(s[1..], sep);
    }
  }

  predicate Separator(c: char) {
    c == '=' || c == ',' || c == ']' || c == '}'
  }

  lemma TextQuiet(t: Text, sep: char)
    requires TextOk(t) && Separator(sep)
    ensures Quiet(PrintText(t), sep, Outside)
  {
    match t
    case Plain(s) =>
      OrdinaryQuiet(s, sep);
    case Quoted(s) =>
      assert "\""[1..] == "";
      assert Quiet("\"", sep, InBasic);
      EscapedQuiet(s, "\"", sep);
      assert PrintText(t) == "\"" + (Escape(s) + "\"");
      assert PrintText(t)[1..] == Escape(s) + "\"";
    case Raw(s) =>
      RawQuiet(s, sep);
      assert PrintText(t) == "'" + (s + "'");
      assert PrintText(t)[1..] == s + "'";
  }

  lemma ScalarQuiet(v: Scalar, sep: char)
    requires ScalarOk(v) && Separator(sep)
    ensures Quiet(PrintScalar(v), sep, Outside)
  {
    match v
    case Line(t) => TextQuiet(t, sep);
    case Whole(n) => OrdinaryQuiet(PrintInt(n), sep);
    case Flag(b) => OrdinaryQuiet(PrintScalar(v), sep);
  }

  // ---------------------------------------------------------------- scalars read back

  lemma {:induction false} DigitsRead(n: nat)
    ensures Magnitude(Digits(n)) == n
    decreases n
  {
    if n >= 10 {
      DigitsRead(n / 10);
      assert Digits(n)[..|Digits(n)| - 1] == Digits(n / 10);
    } else {
      assert Digits(n)[..0] == "";
    }
  }

  lemma IntRead(n: int)
    requires -INT64_LIMIT <= n < INT64_LIMIT
    ensures ParseInt(PrintInt(n)) == Some(n)
  {
    hide Digits, Magnitude;
    var magnitude := if n < 0 then -n else n;
    DigitsRead(magnitude);
    if n < 0 {
      assert PrintInt(n)[1..] == Digits(magnitude);
    }
  }

  function Zeros(k: nat): string {
    if k == 0 then "" else Zeros(k - 1) + "0"
  }

  lemma MagnitudeSnoc(a: string, d: nat)
    requires d < 10 && forall i :: 0 <= i < |a| ==> '0' <= a[i] <= '9'
    ensures Magnitude(a + [('0' as int + d) as char]) == 10 * Magnitude(a) + d
  {
    assert (a + [('0' as int + d) as char])[..|a|] == a;
  }

  lemma {:induction false} ZerosOnly(k: nat)
    ensures |Zeros(k)| == k && (forall i :: 0 <= i < k ==> Zeros(k)[i] == '0') && Magnitude(Zeros(k)) == 0
    decreases k
  {
    if k > 0 {
      ZerosOnly(k - 1);
      MagnitudeSnoc(Zeros(k - 1), 0);
    }
  }

  lemma {:induction false} ZerosDigits(k: nat, m: nat)
    ensures AllDigits(Zeros(k) + Digits(m)) && Magnitude(Zeros(k) + Digits(m)) == m
    decreases m
  {
    hide Magnitude, Zeros;
    ZerosOnly(k);
    if m >= 10 {
      ZerosDigits(k, m / 10);
      MagnitudeSnoc(Zeros(k) + Digits(m / 10), m % 10);
      assert Zeros(k) + Digits(m) == Zeros(k) + Digits(m / 10) + [('0' as int + m % 10) as char];
    } else {
      MagnitudeSnoc(Zeros(k), m);
    }
  }

  /** A run of digits is the numeral of its value behind some zeros. */
  lemma {:induction false} DigitsAre(s: string) returns (k: nat)
    requires AllDigits(s)
    ensures s == Zeros(k) + Digits(Magnitude(s))
    decreases |s|
  {
    hide Magnitude;
    var n := |s| - 1;
    var d := s[n] as int - '0' as int;
    var before := s[..n];
    assert s == before + [('0' as int + d) as char];
    MagnitudeSnoc(before, d);
    if n == 0 {
      k := 0;
      MagnitudeNone();
      assert before == "";
    } else {
      k := DigitsAre(before);
      if Magnitude(before) == 0 {
        k := k + 1;
        assert before == Zeros(k);
      } else {
        assert (10 * Magnitude(before) + d) / 10 == Magnitude(before);
      }
    }
  }

  lemma MagnitudeNone()
    ensures Magnitude("") == 0
  {
  }

  /** What is read as an integer: the numeral of a 64-bit number, perhaps with zeros in front and a sign. */
  lemma ParseIntIff(token: string, n: int)
    ensures ParseInt(token) == Some(n) <==>
            && -INT64_LIMIT <= n < INT64_LIMIT
            && exists k: nat ::
                 || (n >= 0 && (token == Zeros(k) + Digits(n) || token == "+" + (Zeros(k) + Digits(n))))
                 || (n <= 0 && token == "-" + (Zeros(k) + Digits(-n)))
  {
    hide Digits, Zeros, Magnitude;
    var signed := token != "" && (token[0] == '+' || token[0] == '-');
    var body := if signed then token[1..] else token;
    if ParseInt(token) == Some(n) {
      var k := DigitsAre(body);
      assert signed ==> token == [token[0]] + body;
    }
    if k: nat :| || (n >= 0 && (token == Zeros(k) + Digits(n) || token == "+" + (Zeros(k) + Digits(n))))
                 || (n <= 0 && token == "-" + (Zeros(k) + Digits(-n)))
    {
      ZerosDigits(k, if n < 0 then -n else n);
    }
  }

  /** What stands behind a value or a header on a trimmed line: nothing, or something set off by a blank. */
  predicate Behind(rest: string) {
    rest == "" || (rest[0] == ' ' && !IsSpace(rest[|rest| - 1]))
  }

  lemma BehindApart(rest: string)
    requires Behind(rest)
    ensures Apart(rest) && (rest == "" || !IsBare(rest[0])) && (rest == "" ==> EndOfLine(rest))
  {
  }

  lemma NothingBehind()
    ensures Behind("") && EndOfLine("")
  {
  }

  lemma SolidMore(s: string, rest: string)
    requires Solid(s) && Behind(rest)
    ensures Solid(s + rest)
  {
  }

  lemma {:induction false} NoBlank(s: string, rest: string)
    requires forall i :: 0 <= i < |s| ==> s[i] != ' ' && s[i] != '\t'
    requires Behind(rest)
    ensures BlankAt(s + rest) == |s|
    decreases |s|
  {
    if s == "" {
      assert s + rest == rest;
    } else {
      assert (s + rest)[1..] == s[1..] + rest;
      NoBlank(s[1..], rest);
    }
  }

  lemma TokenRead(s: string, rest: string)
    requires forall i :: 0 <= i < |s| ==> s[i] != ' ' && s[i] != '\t'
    requires Behind(rest)
    ensures !EndOfLine(rest) ==> ParseToken(s + rest) == None
    ensures EndOfLine(rest) ==>
              && (s == "true" ==> ParseToken(s + rest) == Some(Bool(true)))
              && (s == "false" ==> ParseToken(s + rest) == Some(Bool(false)))
              && (s != "true" && s != "false" && ParseInt(s).Some? ==> ParseToken(s + rest) == Some(Int(ParseInt(s).value)))
  {
    hide EndOfLine, ParseInt;
    NoBlank(s, rest);
    assert (s + rest)[|s|..] == rest && (s + rest)[..|s|] == s;
  }

  lemma IntShape(n: int)
    ensures var s := PrintInt(n);
            s != "" && s[0] != 't' && s[0] != 'f' && s[0] != '"' && s[0] != '\'' && s[0] != '[' && s[0] != '{' &&
            Solid(s) && forall i :: 0 <= i < |s| ==> s[i] != ' ' && s[i] != '\t'
  {
  }

  lemma ScalarSolid(v: Scalar)
    requires ScalarOk(v)
    ensures Solid(PrintScalar(v))
  {
    match v
    case Line(t) => SegSolid(t);
    case Whole(n) => IntShape(n);
    case Flag(b) =>
  }

  lemma ValueByHead(s: string)
    requires s != "" && s[0] != '[' && s[0] != '{'
    ensures ParseValue(s) ==
            if s[0] == '"' then Toml.Whole(ScanBasic(s))
            else if s[0] == '\'' then Toml.Whole(ScanLiteral(s)) else ParseToken(s)
  {
    hide ParseArray, ParseInline, ParseToken, ScanBasic, ScanLiteral, Toml.Whole;
  }

  /** A printed scalar is read back, unless something other than a remark stands behind it. */
  lemma ScalarRead(v: Scalar, rest: string)
    requires ScalarOk(v) && Behind(rest)
    ensures ParseValue(PrintScalar(v) + rest) == if EndOfLine(rest) then Some(ScalarNode(v)) else None
  {
    BehindApart(rest);
    hide EndOfLine, ScanBasic, ScanLiteral, ParseToken, Behind, ParseValue;
    var s := PrintScalar(v) + rest;
    match v
    case Line(t) =>
      SegRead(t, rest);
      assert s[0] == PrintText(t)[0];
      ValueByHead(s);
    case Whole(n) =>
      IntRead(n);
      IntShape(n);
      TokenRead(PrintInt(n), rest);
      assert s[0] == PrintInt(n)[0];
      ValueByHead(s);
    case Flag(b) =>
      TokenRead(PrintScalar(v), rest);
      assert s[0] == PrintScalar(v)[0];
      ValueByHead(s);
  }

  // ---------------------------------------------------------------- lists read back

  lemma {:induction false} CommasQuiet(parts: seq<string>, sep: char)
    requires sep == ']' || sep == '}'
    requires forall i :: 0 <= i < |parts| ==> Quiet(parts[i], sep, Outside)
    ensures Quiet(Commas(parts), sep, Outside)
    decreases |parts|
  {
    if |parts| > 1 {
      CommasQuiet(parts[1..], sep);
      OrdinaryQuiet(",", sep);
      OrdinaryQuiet(" ", sep);
      QuietConcat(parts[0], ",", sep, Outside);
      QuietConcat(parts[0] + ",", " ", sep, Outside);
      QuietConcat(parts[0] + "," + " ", Commas(parts[1..]), sep, Outside);
    }
  }

  lemma CommasMore(parts: seq<string>)
    requires |parts| > 1
    ensures Commas(parts) == parts[0] + "," + " " + Commas(parts[1..])
  {
  }

  /** Splitting takes the first piece off a printed list. */
  lemma SplitFirst(pre: string, parts: seq<string>)
    requires parts != [] && Quiet(pre, ',', Outside) && Quiet(parts[0], ',', Outside)
    ensures Split(pre + Commas(parts)) ==
            [pre + parts[0]] + if |parts| == 1 then [] else Split(" " + Commas(parts[1..]))
  {
    hide Quiet, Find;
    var first := pre + parts[0];
    QuietConcat(pre, parts[0], ',', Outside);
    var s := pre + Commas(parts);
    if |parts| == 1 {
      assert s == first;
      FindQuietNone(first, ',', Outside);
    } else {
      hide Commas;
      CommasMore(parts);
      var rest := " " + Commas(parts[1..]);
      assert s == first + [','] + rest;
      FindAfterQuiet(first, ',', rest, Outside);
      assert s[..|first|] == first && s[|first| + 1..] == rest;
    }
  }

  lemma TrimGap(pre: string, s: string)
    requires (pre == "" || pre == " ") && Solid(s)
    ensures Trim(pre + s) == s
  {
    TrimSolid(s);
    assert "" + s == s;
  }

  lemma GapQuiet(pre: string, sep: char)
    requires (pre == "" || pre == " ") && Separator(sep)
    ensures Quiet(pre, sep, Outside)
  {
    OrdinaryQuiet(pre, sep);
  }

  lemma TailFits(parts: seq<string>, bound: nat)
    requires parts != [] && |parts| <= bound && forall p <- parts :: |p| < bound
    ensures |parts[1..]| <= bound && forall p <- parts[1..] :: |p| < bound
  {
  }

  lemma {:induction false} ItemsRead(pre: string, items: seq<Scalar>, bound: nat)
    requires items != [] && (pre == "" || pre == " ") && ValueOk(Many(items))
    requires var parts := Split(pre + Commas(PrintScalars(items))); |parts| <= bound && forall p <- parts :: |p| < bound
    ensures ParseItems(Split(pre + Commas(PrintScalars(items))), bound) == Some(Nodes(items))
    decreases |items|
  {
    hide Split, Commas, Quiet, Trim, ParseValue, PrintScalar, Solid, ScalarOk;
    var prints := PrintScalars(items);
    var parts := Split(pre + Commas(prints));
    assert ScalarOk(items[0]);
    GapQuiet(pre, ',');
    ScalarQuiet(items[0], ',');
    SplitFirst(pre, prints);
    ScalarSolid(items[0]);
    SolidSome(PrintScalar(items[0]));
    TrimGap(pre, PrintScalar(items[0]));
    ScalarRead(items[0], "");
    assert PrintScalar(items[0]) + "" == PrintScalar(items[0]);
    assert parts[0] == pre + PrintScalar(items[0]);
    if |items| == 1 {
      assert parts[1..] == [] && Nodes(items[1..]) == [];
    } else {
      var rest := Split(" " + Commas(prints[1..]));
      assert prints[1..] == PrintScalars(items[1..]);
      assert parts[1..] == rest;
      TailFits(parts, bound);
      ItemsRead(" ", items[1..], bound);
    }
  }

  lemma SolidSome(s: string)
    requires Solid(s)
    ensures s != ""
  {
  }

  lemma ArrayIs(s: string, body: string, rest: string)
    requires s == "[" + body + "]" + rest && Find(s, ']', Outside) == |body| + 1
    ensures !EndOfLine(rest) ==> ParseArray(s) == None
    ensures EndOfLine(rest) ==>
              var items := ParseItems(Split(body), |s|);
              ParseArray(s) == if items.Some? then Some(Arr(items.value)) else None
  {
    hide Find, Split, ParseFields, EndOfLine, ParseValue, ParseInline, ParseItems;
    assert s[1..|body| + 1] == body && s[|body| + 2..] == rest;
  }

  lemma ValueIsArray(s: string)
    requires s != "" && s[0] == '['
    ensures ParseValue(s) == ParseArray(s)
  {
    hide ParseInline, ParseArray;
  }

  lemma ArrayRead(items: seq<Scalar>, rest: string)
    requires ValueOk(Many(items))
    ensures ParseValue(PrintValue(Many(items)) + rest) == if EndOfLine(rest) then Some(Arr(Nodes(items))) else None
  {
    var body := Commas(PrintScalars(items));
    var s := "[" + body + "]" + rest;
    ScalarsQuiet(items, ']');
    CommasQuiet(PrintScalars(items), ']');
    EndFound('[', body, ']', rest);
    assert s == PrintValue(Many(items)) + rest;
    hide Find, Commas, PrintScalars, Split, EndOfLine, ParseValue, ParseArray, ParseItems, Quiet, ScalarOk;
    ArrayIs(s, body, rest);
    ValueIsArray(s);
    if items == [] {
      EmptyList();
      NoItems(|s|);
    } else {
      assert "" + body == body;
      ItemsRead("", items, |s|);
    }
  }

  lemma NoItems(bound: nat)
    requires bound > 0
    ensures ParseItems([""], bound) == Some([])
  {
    EmptyList();
  }

  lemma EmptyList()
    ensures Commas(PrintScalars([])) == "" && Split("") == [""] && Trim("") == ""
  {
  }

  /** The closing bracket of a printed list is the one found, whatever follows it. */
  lemma EndFound(open: char, body: string, close: char, rest: string)
    requires Quiet(body, close, Outside) && open != '"' && open != '\'' && open != close
    ensures Find([open] + body + [close] + rest, close, Outside) == |body| + 1
  {
    OrdinaryQuiet([open], close);
    QuietConcat([open], body, close, Outside);
    FindAfterQuiet([open] + body, close, rest, Outside);
  }

  lemma {:induction false} ScalarsQuiet(items: seq<Scalar>, sep: char)
    requires ValueOk(Many(items)) && Separator(sep)
    ensures forall i :: 0 <= i < |items| ==> Quiet(PrintScalars(items)[i], sep, Outside)
    decreases |items|
  {
    if items != [] {
      ScalarQuiet(items[0], sep);
      ScalarsQuiet(items[1..], sep);
    }
  }

  // ---------------------------------------------------------------- inline tables read back

  lemma EntryQuiet(e: Entry, sep: char)
    requires EntryOk(e) && (sep == ',' || sep == '}')
    ensures Quiet(PrintEntry(e), sep, Outside)
  {
    TextQuiet(e.key, sep);
    ScalarQuiet(e.value, sep);
    hide PrintText, PrintScalar, Quiet;
    OrdinaryQuiet(" ", sep);
    OrdinaryQuiet("=", sep);
    var key := PrintText(e.key);
    QuietConcat(key, " ", sep, Outside);
    QuietConcat(key + " ", "=", sep, Outside);
    QuietConcat(key + " " + "=", " ", sep, Outside);
    QuietConcat(key + " " + "=" + " ", PrintScalar(e.value), sep, Outside);
  }

  /** A printed assignment splits at its equals sign into the key and the value. */
  lemma AssignSplit(key: Text, value: string)
    requires TextOk(key) && Solid(value)
    ensures var s := PrintText(key) + " " + "=" + " " + value;
            var eq := Find(s, '=', Outside);
            && Solid(s) && s[0] == PrintText(key)[0] && eq >= 0
            && SingleKey(Trim(s[..eq])) == Some(key.text) && Trim(s[eq + 1..]) == value
  {
    var k := PrintText(key);
    var s := k + " " + "=" + " " + value;
    TextQuiet(key, '=');
    OrdinaryQuiet(" ", '=');
    QuietConcat(k, " ", '=', Outside);
    FindAfterQuiet(k + " ", '=', " " + value, Outside);
    assert s == (k + " ") + ['='] + (" " + value);
    SegSolid(key);
    hide PrintText, Find, Trim, SingleKey;
    assert s[..|k| + 1] == k + " " && s[|k| + 2..] == " " + value;
    TrimSolid(k);
    TrimSolid(value);
    KeyRead(key);
  }

  /** One entry of an inline table is read back. */
  lemma EntryRead(e: Entry)
    requires EntryOk(e)
    ensures var s := PrintEntry(e);
            var eq := Find(s, '=', Outside);
            && Solid(s) && eq >= 0 && SingleKey(Trim(s[..eq])) == Some(e.key.text)
            && ParseValue(Trim(s[eq + 1..])) == Some(ScalarNode(e.value))
  {
    hide ParseValue, Find, Trim, SingleKey, Solid, PrintText, PrintScalar, EndOfLine, ScalarNode, ScalarOk, TextOk;
    ScalarSolid(e.value);
    AssignSplit(e.key, PrintScalar(e.value));
    NothingBehind();
    ScalarRead(e.value, "");
    assert PrintScalar(e.value) + "" == PrintScalar(e.value);
  }

  lemma ScalarIsPlain(v: Scalar)
    ensures !ScalarNode(v).Table? && !ScalarNode(v).Arr?
  {
  }

  /** One more piece of an inline table. */
  lemma FieldsStep(parts: seq<string>, bound: nat, sofar: map<string, Node>, key: string, v: Node)
    requires parts != [] && |parts| <= bound && forall p <- parts :: |p| < bound
    requires !v.Table?
    requires var part := Trim(parts[0]);
             var eq := Find(part, '=', Outside);
             eq >= 0 && SingleKey(Trim(part[..eq])) == Some(key) && ParseValue(Trim(part[eq + 1..])) == Some(v)
    ensures ParseFields(parts, bound, sofar) ==
            if key in sofar then None else ParseFields(parts[1..], bound, sofar[key := v])
  {
    hide Trim, Find, SingleKey, ParseValue;
  }

  lemma FieldsCons(es: seq<Entry>, sofar: map<string, Node>)
    ensures es != [] ==>
              var key := es[0].key.text;
              Fields(es, sofar) == if key in sofar then None else Fields(es[1..], sofar[key := ScalarNode(es[0].value)])
  {
    hide ScalarNode;
  }

  lemma FieldsDone(bound: nat, sofar: map<string, Node>)
    ensures ParseFields([], bound, sofar) == Some(sofar) && Fields([], sofar) == Some(sofar)
  {
  }

  lemma {:induction false} EntriesQuiet(es: seq<Entry>, sep: char)
    requires ValueOk(Inline(es)) && (sep == ',' || sep == '}')
    ensures forall i :: 0 <= i < |es| ==> Quiet(PrintEntries(es)[i], sep, Outside)
    decreases |es|
  {
    if es != [] {
      EntryQuiet(es[0], sep);
      EntriesQuiet(es[1..], sep);
    }
  }

  lemma {:induction false} FieldsRead(pre: string, es: seq<Entry>, bound: nat, sofar: map<string, Node>)
    requires es != [] && (pre == "" || pre == " ") && ValueOk(Inline(es))
    requires var parts := Split(pre + Commas(PrintEntries(es))); |parts| <= bound && forall p <- parts :: |p| < bound
    ensures ParseFields(Split(pre + Commas(PrintEntries(es))), bound, sofar) == Fields(es, sofar)
    decreases |es|
  {
    hide Split, Commas, Quiet, Trim, ParseValue, Solid, EntryOk, SingleKey, Find, PrintEntry, ScalarNode, ParseFields, Fields;
    var prints := PrintEntries(es);
    var parts := Split(pre + Commas(prints));
    var key, v := es[0].key.text, ScalarNode(es[0].value);
    assert EntryOk(es[0]);
    GapQuiet(pre, ',');
    EntryQuiet(es[0], ',');
    SplitFirst(pre, prints);
    EntryRead(es[0]);
    TrimGap(pre, PrintEntry(es[0]));
    ScalarIsPlain(es[0].value);
    assert parts[0] == pre + PrintEntry(es[0]);
    FieldsStep(parts, bound, sofar, key, v);
    FieldsCons(es, sofar);
    if |es| == 1 {
      assert parts[1..] == [] && es[1..] == [];
      FieldsDone(bound, sofar[key := v]);
    } else {
      var rest := Split(" " + Commas(prints[1..]));
      assert prints[1..] == PrintEntries(es[1..]);
      assert parts[1..] == rest;
      TailFits(parts, bound);
      FieldsRead(" ", es[1..], bound, sofar[key := v]);
    }
  }

  lemma {:induction false} EntriesSolid(es: seq<Entry>)
    requires es != [] && ValueOk(Inline(es))
    ensures Solid(Commas(PrintEntries(es)))
    decreases |es|
  {
    hide PrintEntry, Find, SingleKey, Trim, ParseValue, ScalarNode, EntryOk, Commas;
    assert EntryOk(es[0]);
    EntryRead(es[0]);
    if |es| > 1 {
      EntriesSolid(es[1..]);
      assert PrintEntries(es)[1..] == PrintEntries(es[1..]);
      CommasMore(PrintEntries(es));
      SolidBetween(PrintEntry(es[0]), Commas(PrintEntries(es[1..])));
    } else {
      CommasOne(PrintEntries(es));
    }
  }

  lemma CommasOne(parts: seq<string>)
    requires |parts| == 1
    ensures Commas(parts) == parts[0]
  {
  }

  lemma SolidBetween(a: string, b: string)
    requires Solid(a) && Solid(b)
    ensures Solid(a + "," + " " + b)
  {
    hide IsSpace;
    var s := a + "," + " " + b;
    assert s[0] == a[0] && s[|s| - 1] == b[|b| - 1];
  }

  lemma InlineIs(s: string, body: string, rest: string)
    requires s == "{" + body + "}" + rest && Find(s, '}', Outside) == |body| + 1 && Trim(body) == body
    ensures !EndOfLine(rest) ==> ParseInline(s) == None
    ensures EndOfLine(rest) && body == "" ==> ParseInline(s) == Some(Table(map[]))
    ensures EndOfLine(rest) && body != "" ==>
              var fields := ParseFields(Split(body), |s|, map[]);
              ParseInline(s) == if fields.Some? then Some(Table(fields.value)) else None
  {
    hide Find, Split, Trim, ParseFields, EndOfLine, ParseValue, ParseArray, ParseItems;
    assert s[1..|body| + 1] == body && s[|body| + 2..] == rest;
  }

  lemma ValueIsInline(s: string)
    requires s != "" && s[0] == '{'
    ensures ParseValue(s) == ParseInline(s)
  {
    hide ParseInline, ParseArray;
  }

  /** Braces around a quiet text. */
  lemma InlineShape(body: string, rest: string)
    requires Quiet(body, '}', Outside) && Trim(body) == body
    ensures !EndOfLine(rest) ==> ParseValue("{" + body + "}" + rest) == None
    ensures EndOfLine(rest) && body == "" ==> ParseValue("{" + body + "}" + rest) == Some(Table(map[]))
    ensures EndOfLine(rest) && body != "" ==>
              var fields := ParseFields(Split(body), |body| + 2 + |rest|, map[]);
              ParseValue("{" + body + "}" + rest) == if fields.Some? then Some(Table(fields.value)) else None
  {
    hide Find, Split, Trim, ParseFields, Quiet, EndOfLine, ParseValue, ParseInline;
    var s := "{" + body + "}" + rest;
    EndFound('{', body, '}', rest);
    InlineIs(s, body, rest);
    ValueIsInline(s);
  }

  lemma SplitSizes(s: string)
    ensures |Split(s)| <= |s| + 2 && forall p <- Split(s) :: |p| < |s| + 2
  {
  }

  lemma InlineBody(es: seq<Entry>)
    requires ValueOk(Inline(es))
    ensures var body := Commas(PrintEntries(es));
            Quiet(body, '}', Outside) && Trim(body) == body && (body == "" <==> es == [])
  {
    EntriesQuiet(es, '}');
    CommasQuiet(PrintEntries(es), '}');
    hide Quiet, Trim;
    if es == [] {
      EmptyList();
    } else {
      EntriesSolid(es);
      TrimSolid(Commas(PrintEntries(es)));
    }
  }

  lemma InlineFields(es: seq<Entry>, more: nat)
    requires ValueOk(Inline(es)) && es != []
    ensures ParseFields(Split(Commas(PrintEntries(es))), |Commas(PrintEntries(es))| + 2 + more, map[]) == Fields(es, map[])
  {
    hide Commas, PrintEntries, Split, ParseFields, Fields;
    var body := Commas(PrintEntries(es));
    assert "" + body == body;
    SplitSizes(body);
    FieldsRead("", es, |body| + 2 + more, map[]);
  }

  lemma InlineRead(es: seq<Entry>, rest: string)
    requires ValueOk(Inline(es))
    ensures ParseValue(PrintValue(Inline(es)) + rest) == if EndOfLine(rest) then ValueNode(Inline(es)) else None
  {
    hide EndOfLine, Commas, PrintEntries, Split, Trim, ParseValue, ParseFields, Fields, Quiet;
    var body := Commas(PrintEntries(es));
    InlineBody(es);
    InlineShape(body, rest);
    if es != [] {
      InlineFields(es, |rest|);
    } else {
      FieldsDone(0, map[]);
    }
  }

  /** A printed value is read back, unless something other than a remark stands behind it; a table with a
      repeated key is refused. */
  lemma ValueRead(v: Value, rest: string)
    requires ValueOk(v) && Behind(rest)
    ensures ParseValue(PrintValue(v) + rest) == (if EndOfLine(rest) then ValueNode(v) else None) && Solid(PrintValue(v))
  {
    hide ParseValue, Behind, EndOfLine;
    match v
    case One(x) =>
      ScalarRead(x, rest);
      ScalarSolid(x);
    case Many(items) => ArrayRead(items, rest);
    case Inline(es) => InlineRead(es, rest);
  }

  // ---------------------------------------------------------------- lines read back

  lemma {:induction false} PathFacts(path: seq<Text>)
    requires path != [] && forall k :: 0 <= k < |path| ==> TextOk(path[k])
    ensures Solid(PrintPath(path)) && PrintPath(path)[0] != '['
    ensures Quiet(PrintPath(path), ']', Outside)
    decreases |path|
  {
    SegSolid(path[0]);
    TextQuiet(path[0], ']');
    hide PrintText;
    if |path| > 1 {
      PathFacts(path[1..]);
      OrdinaryQuiet(".", ']');
      QuietConcat(PrintText(path[0]), ".", ']', Outside);
      QuietConcat(PrintText(path[0]) + ".", PrintPath(path[1..]), ']', Outside);
    }
  }

  lemma {:induction false} PathRead(path: seq<Text>)
    requires path != [] && forall k :: 0 <= k < |path| ==> TextOk(path[k])
    ensures KeyPath(PrintPath(path)) == Some(Segments(path))
    decreases |path|
  {
    hide PrintText, ScanKeySeg, Trim, TextOk;
    if |path| == 1 {
      SegRead(path[0], "");
      assert PrintText(path[0]) + "" == PrintText(path[0]);
      EmptyList();
      assert Segments(path) == [path[0].text];
    } else {
      var more := PrintPath(path[1..]);
      SegRead(path[0], "." + more);
      assert PrintPath(path) == PrintText(path[0]) + ("." + more);
      PathFacts(path[1..]);
      TrimSolid(more);
      TrimSolid("." + more);
      assert ("." + more)[1..] == more;
      PathRead(path[1..]);
    }
  }

  lemma SectionRead(path: seq<Text>, rest: string)
    requires ItemOk(Section(path)) && Behind(rest)
    ensures ReadLine(PrintItem(Section(path)) + rest) == if EndOfLine(rest) then Some(Header(Segments(path))) else None
    ensures Solid(PrintItem(Section(path)))
  {
    hide Find, KeyPath, Trim, EndOfLine;
    var body := PrintPath(path);
    var s := "[" + body + "]";
    PathFacts(path);
    SolidMore(s, rest);
    TrimSolid(s + rest);
    EndFound('[', body, ']', rest);
    assert (s + rest)[1] == body[0];
    assert (s + rest)[1..|body| + 1] == body && (s + rest)[|body| + 2..] == rest;
    TrimSolid(body);
    PathRead(path);
  }

  lemma SettingIs(line: string)
    requires Solid(line) && line[0] != '[' && line[0] != '#'
    ensures var eq := Find(line, '=', Outside);
            ReadLine(line) ==
            if eq < 0 then None
            else
              var key, v := SingleKey(Trim(line[..eq])), ParseValue(Trim(line[eq + 1..]));
              if key.None? || v.None? then None else Some(Assign(key.value, v.value))
  {
    TrimSolid(line);
    hide Find, Trim, ParseValue, SingleKey, EndOfLine, KeyPath;
  }

  lemma SettingRead(key: Text, value: Value, rest: string)
    requires ItemOk(Setting(key, value)) && Behind(rest)
    ensures ReadLine(PrintItem(Setting(key, value)) + rest) == if EndOfLine(rest) then Meaning(Setting(key, value)) else None
    ensures Solid(PrintItem(Setting(key, value)))
  {
    hide Find, Trim, ParseValue, SingleKey, ValueNode, PrintValue, PrintText, Solid, Behind, EndOfLine, ReadLine, TextOk, ValueOk;
    ValueRead(value, rest);
    SegSolid(key);
    SolidMore(PrintValue(value), rest);
    AssignSplit(key, PrintValue(value) + rest);
    AssignSplit(key, PrintValue(value));
    var line := PrintItem(Setting(key, value)) + rest;
    assert PrintText(key) + " " + "=" + " " + (PrintValue(value) + rest) == line;
    SettingIs(line);
  }

  /** Only white space, or a number sign with nothing but white space in front of it. */
  predicate OnlyRemark(s: string) {
    || (forall i :: 0 <= i < |s| ==> IsSpace(s[i]))
    || exists n :: 0 <= n < |s| && s[n] == '#' && forall i :: 0 <= i < n ==> IsSpace(s[i])
  }

  lemma EndOfLineIff(s: string)
    ensures EndOfLine(s) <==> OnlyRemark(s)
  {
    var left := TrimLeft(s);
    TrimLeftShape(s);
    TrimRightShape(left);
    var n := |s| - |left|;
    if left != "" {
      assert left[0] == s[n];
      assert TrimRight(left) != "";
      assert !IsSpace('#');
    }
  }

  lemma {:induction false} TrimRightBehind(a: string, b: string)
    ensures TrimRight(a + b) == if TrimRight(b) == "" then TrimRight(a) else a + TrimRight(b)
    decreases |b|
  {
    if b == "" {
      assert a + b == a;
    } else {
      var n := |b| - 1;
      assert (a + b)[..|a| + n] == a + b[..n] && (a + b)[|a| + n] == b[n];
      if IsSpace(b[n]) {
        TrimRightBehind(a, b[..n]);
      }
    }
  }

  /** What a trimmed text keeps behind a line. */
  function Tail(tail: string): string {
    if TrimRight(tail) == "" then "" else " " + TrimRight(tail)
  }

  lemma TailTrims(line: string, tail: string)
    requires Solid(line)
    ensures Behind(Tail(tail)) && (EndOfLine(Tail(tail)) <==> EndOfLine(tail))
    ensures Trim(line + " " + tail) == line + Tail(tail)
  {
    TrimRightShape(tail);
    SameRemark(tail, TrimRight(tail), Tail(tail));
    TrimRightBehind(line + " ", tail);
    TrimSolid(line);
    hide TrimRight, EndOfLine;
    var s := line + " " + tail;
    assert TrimLeft(s) == s && TrimLeft(line + " ") == line + " ";
    assert Trim(line + " ") == line;
  }

  lemma SameRemark(tail: string, kept: string, rest: string)
    requires kept <= tail && forall i :: |kept| <= i < |tail| ==> IsSpace(tail[i])
    requires rest == if kept == "" then "" else " " + kept
    ensures EndOfLine(rest) <==> EndOfLine(tail)
  {
    EndOfLineIff(rest);
    EndOfLineIff(tail);
    assert !IsSpace('#') && IsSpace(' ');
    assert kept != "" ==> forall i :: 0 <= i < |kept| ==> rest[i + 1] == tail[i];
    if OnlyRemark(tail) {
      if n :| 0 <= n < |tail| && tail[n] == '#' && forall i :: 0 <= i < n ==> IsSpace(tail[i]) {
        assert rest[n + 1] == '#';
      }
    }
    if OnlyRemark(rest) && kept != "" {
      if n :| 0 <= n < |rest| && rest[n] == '#' && forall i :: 0 <= i < n ==> IsSpace(rest[i]) {
        assert tail[n - 1] == '#';
        assert forall i :: 0 <= i < n - 1 ==> tail[i] == rest[i + 1];
      } else {
        assert forall i :: 0 <= i < |kept| ==> tail[i] == rest[i + 1];
      }
    }
  }

  /** White space around a line does not matter. */
  lemma ReadTrimmed(a: string, b: string)
    requires Trim(a) == Trim(b)
    ensures ReadLine(a) == ReadLine(b)
  {
    hide Trim, Find, ParseValue, SingleKey, KeyPath, EndOfLine;
  }

  lemma LineRead(i: Item, rest: string)
    requires ItemOk(i) && (i.Section? || i.Setting?) && Behind(rest)
    ensures ReadLine(PrintItem(i) + rest) == if EndOfLine(rest) then Meaning(i) else None
    ensures Solid(PrintItem(i))
  {
    hide ReadLine, Solid, EndOfLine;
    match i
    case Section(path) => SectionRead(path, rest);
    case Setting(key, value) => SettingRead(key, value, rest);
  }

  /** A section or a setting reads the same with white space or a remark behind it, whatever the remark
      says, and is refused with anything else behind it. */
  lemma TailRead(i: Item, tail: string)
    requires ItemOk(i) && (i.Section? || i.Setting?)
    ensures ReadLine(PrintItem(i) + " " + tail) == if OnlyRemark(tail) then Meaning(i) else None
  {
    hide ReadLine, EndOfLine, Trim, PrintItem, Meaning, OnlyRemark, Tail;
    LineRead(i, "");
    var rest := Tail(tail);
    TailTrims(PrintItem(i), tail);
    SolidMore(PrintItem(i), rest);
    TrimSolid(PrintItem(i) + rest);
    ReadTrimmed(PrintItem(i) + " " + tail, PrintItem(i) + rest);
    LineRead(i, rest);
    EndOfLineIff(tail);
  }

  lemma NoteIsRemark(note: string)
    ensures OnlyRemark("#" + note)
  {
    assert ("#" + note)[0] == '#';
  }

  lemma CommentRead(note: string)
    ensures ReadLine("#" + note) == Some(Nothing)
  {
    hide Find, ParseValue, SingleKey, KeyPath, EndOfLine, TrimRight;
    TrimRightShape("#" + note);
    assert TrimLeft("#" + note) == "#" + note;
  }

  lemma BlankRead()
    ensures ReadLine("") == Some(Nothing)
  {
  }

  lemma NotedRead(line: Item, note: string)
    requires ItemOk(Noted(line, note))
    ensures ReadLine(PrintItem(Noted(line, note))) == Meaning(Noted(line, note))
  {
    hide ReadLine, PrintPath, PrintValue, ValueNode, Segments, PrintText;
    NoteIsRemark(note);
    TailRead(line, "#" + note);
    assert PrintItem(line) + " " + ("#" + note) == PrintItem(Noted(line, note));
  }

  /** A printed line says what it was printed from. */
  lemma ItemRead(i: Item)
    requires ItemOk(i)
    ensures ReadLine(PrintItem(i)) == Meaning(i)
  {
    hide ReadLine, PrintPath, PrintValue, ValueNode, Segments, PrintText, EndOfLine;
    BlankRead();
    NothingBehind();
    match i
    case Blank =>
    case Comment(s) => CommentRead(s);
    case Noted(line, note) => NotedRead(line, note);
    case _ =>
      LineRead(i, "");
      assert PrintItem(i) + "" == PrintItem(i);
  }

  // ---------------------------------------------------------------- whole texts read back

  lemma {:induction false} EscapeOneLine(s: string)
    ensures OneLine(Escape(s))
    decreases |s|
  {
    if s != "" {
      EscapeOneLine(s[1..]);
    }
  }

  lemma TextOneLine(t: Text)
    requires TextOk(t)
    ensures OneLine(PrintText(t))
  {
    if t.Quoted? {
      EscapeOneLine(t.text);
    }
  }

  lemma ScalarOneLine(v: Scalar)
    requires ScalarOk(v)
    ensures OneLine(PrintScalar(v))
  {
    if v.Line? {
      TextOneLine(v.t);
    }
  }

  lemma {:induction false} CommasOneLine(parts: seq<string>)
    requires forall i :: 0 <= i < |parts| ==> OneLine(parts[i])
    ensures OneLine(Commas(parts))
    decreases |parts|
  {
    if |parts| > 1 {
      CommasOneLine(parts[1..]);
    }
  }

  lemma {:induction false} ScalarsOneLine(items: seq<Scalar>)
    requires ValueOk(Many(items))
    ensures forall i :: 0 <= i < |items| ==> OneLine(PrintScalars(items)[i])
    decreases |items|
  {
    if items != [] {
      ScalarOneLine(items[0]);
      ScalarsOneLine(items[1..]);
    }
  }

  lemma {:induction false} EntriesOneLine(es: seq<Entry>)
    requires ValueOk(Inline(es))
    ensures forall i :: 0 <= i < |es| ==> OneLine(PrintEntries(es)[i])
    decreases |es|
  {
    if es != [] {
      TextOneLine(es[0].key);
      ScalarOneLine(es[0].value);
      EntriesOneLine(es[1..]);
    }
  }

  lemma {:induction false} PathOneLine(path: seq<Text>)
    requires path != [] && forall k :: 0 <= k < |path| ==> TextOk(path[k])
    ensures OneLine(PrintPath(path))
    decreases |path|
  {
    TextOneLine(path[0]);
    if |path| > 1 {
      PathOneLine(path[1..]);
    }
  }

  lemma ValueOneLine(v: Value)
    requires ValueOk(v)
    ensures OneLine(PrintValue(v))
  {
    match v
    case One(x) => ScalarOneLine(x);
    case Many(items) =>
      ScalarsOneLine(items);
      CommasOneLine(PrintScalars(items));
    case Inline(es) =>
      EntriesOneLine(es);
      CommasOneLine(PrintEntries(es));
  }

  lemma ItemOneLine(i: Item)
    requires ItemOk(i)
    ensures OneLine(PrintItem(i))
  {
    hide PrintValue, PrintPath, PrintText;
    match i
    case Blank =>
    case Comment(_) =>
    case Section(path) => PathOneLine(path);
    case Setting(key, value) =>
      TextOneLine(key);
      ValueOneLine(value);
    case Noted(line, _) => ItemOneLine(line);
  }

  /** Printed lines never start with a byte order mark. */
  lemma NoMark(i: Item)
    requires ItemOk(i)
    ensures WithoutMark(PrintItem(i) + "\n") == PrintItem(i) + "\n"
  {
    hide PrintValue, PrintPath;
    var line := if i.Noted? then i.line else i;
    if line.Setting? {
      SegSolid(line.key);
    }
  }

  lemma {:induction false} PrintFacts(items: seq<Item>)
    requires forall i :: 0 <= i < |items| ==> ItemOk(items[i])
    ensures '\r' !in Print(items)
    ensures Lines(Print(items)) == PrintAll(items) + [""]
    decreases |items|
  {
    if items != [] {
      ItemOneLine(items[0]);
      hide PrintItem, Lines;
      var line, rest := PrintItem(items[0]), Print(items[1..]);
      PrintFacts(items[1..]);
      LinesCons(line, rest);
    } else {
      assert Lines("") == [""];
    }
  }

  lemma LinesCons(line: string, rest: string)
    requires '\n' !in line
    ensures Lines(line + "\n" + rest) == [line] + Lines(rest)
  {
    var text := line + ['\n'] + rest;
    FindByteAt(line, '\n', rest);
    assert text == line + "\n" + rest;
    assert text[..|line|] == line && text[|line| + 1..] == rest;
  }

  function PrintAll(items: seq<Item>): (ls: seq<string>)
    requires forall i :: 0 <= i < |items| ==> ItemOk(items[i])
    ensures |ls| == |items|
  {
    if items == [] then [] else [PrintItem(items[0])] + PrintAll(items[1..])
  }

  lemma {:induction false} NoReturns(s: string)
    requires '\r' !in s
    ensures DropReturns(s) == s
    decreases |s|
  {
    if |s| >= 2 {
      NoReturns(s[1..]);
    }
  }

  lemma {:induction false} AllRead(items: seq<Item>)
    requires forall i :: 0 <= i < |items| ==> ItemOk(items[i])
    ensures ReadAll(PrintAll(items) + [""]) == Meanings(items) + [Some(Nothing)]
    decreases |items|
  {
    hide ReadLine, Meaning, PrintItem, ReadAll, ItemOk;
    if items == [] {
      assert PrintAll(items) + [""] == [""];
      LastLine();
    } else {
      ItemRead(items[0]);
      AllRead(items[1..]);
      var ls := PrintAll(items) + [""];
      assert ls[0] == PrintItem(items[0]) && ls[1..] == PrintAll(items[1..]) + [""];
      ReadAllCons(ls);
    }
  }

  lemma LastLine()
    ensures ReadAll([""]) == [Some(Nothing)]
  {
    EmptyList();
    assert ReadLine("") == Some(Nothing);
  }

  lemma ReadAllCons(ls: seq<string>)
    requires ls != []
    ensures ReadAll(ls) == [ReadLine(ls[0])] + ReadAll(ls[1..])
  {
    hide ReadLine;
  }

  lemma {:induction false} BuildTail(cs: seq<Option<Content>>, st: State, lineNo: nat)
    ensures Build(cs + [Some(Nothing)], st, lineNo) == Build(cs, st, lineNo)
    decreases |cs|
  {
    if cs == [] {
      assert [Some(Nothing)][1..] == [];
      assert cs + [Some(Nothing)] == [Some(Nothing)];
    } else {
      assert (cs + [Some(Nothing)])[1..] == cs[1..] + [Some(Nothing)];
      if cs[0].Some? && Step(st, cs[0].value).Some? {
        BuildTail(cs[1..], Step(st, cs[0].value).value, lineNo + 1);
      }
    }
  }

  /** What a document stands for: the tree its lines build, or the number of the first line that conflicts
      with an earlier one. */
  function Denotes(items: seq<Item>): Result<map<string, Node>, nat> {
    var r := Build(Meanings(items), START, 1);
    if r.Ok? then Ok(r.value.root) else Err(r.error)
  }

  /** Parsing what was printed gives what the document denotes, for every document: keys and strings in any
      quotes and with any characters, arrays, inline tables, comments and dotted sections. What a document
      denotes, and when it denotes a tree at all, is said of its lines alone in TomlTree. */
  lemma ParsePrint(items: seq<Item>)
    requires forall i :: 0 <= i < |items| ==> ItemOk(items[i])
    ensures Parse(Print(items)) == Denotes(items)
  {
    hide Build, ReadAll, Lines, DropReturns, Meanings, PrintAll;
    var text := Print(items);
    PrintFacts(items);
    NoReturns(text);
    MarkFree(items);
    AllRead(items);
    BuildTail(Meanings(items), START, 1);
  }

  /** The text with the line ends of other systems. */
  function Returns(text: string): string {
    if text == "" then "" else (if text[0] == '\n' then "\r\n" else [text[0]]) + Returns(text[1..])
  }

  lemma {:induction false} ReturnsDropped(text: string)
    requires '\r' !in text
    ensures DropReturns(Returns(text)) == text
    decreases |text|
  {
    if text != "" {
      ReturnsDropped(text[1..]);
      var rest := Returns(text[1..]);
      if text[0] == '\n' {
        assert ("\r\n" + rest)[2..] == rest;
      } else {
        assert ([text[0]] + rest)[1..] == rest;
      }
    }
  }

  /** A byte order mark and the line ends of other systems make no difference. */
  lemma ParseForeign(items: seq<Item>)
    requires forall i :: 0 <= i < |items| ==> ItemOk(items[i])
    ensures Parse(['\U{FEFF}'] + Returns(Print(items))) == Denotes(items)
  {
    hide Build, ReadAll, Lines, DropReturns, Returns, Print;
    var text := Print(items);
    PrintFacts(items);
    ReturnsDropped(text);
    NoReturns(text);
    MarkFree(items);
    assert WithoutMark(['\U{FEFF}'] + Returns(text)) == Returns(text);
    ParsePrint(items);
  }

  lemma MarkFree(items: seq<Item>)
    requires forall i :: 0 <= i < |items| ==> ItemOk(items[i])
    ensures WithoutMark(Print(items)) == Print(items)
  {
    hide PrintItem;
    if items != [] {
      NoMark(items[0]);
      assert Print(items)[0] == (PrintItem(items[0]) + "\n")[0];
    }
  }
}
