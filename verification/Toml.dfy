/** The TOML subset (backend/pkg/mcp/toml_subset.go): the scanners and the parser as functions over
    sequences of code points. An error keeps only its line number. */
module Toml {
  import opened Wrappers

  const BACKSPACE: char := 8 as char
  const FORM_FEED: char := 12 as char
  const REPLACEMENT: char := '\U{FFFD}'

  /** A parsed value; an inline table and a section are the same thing. */
  datatype Node =
    | Str(s: string)
    | Int(n: int)
    | Bool(b: bool)
    | Arr(items: seq<Node>)
    | Table(fields: map<string, Node>)

  // ---------------------------------------------------------------- white space

  /** Unicode white space, which TrimSpace removes. */
  predicate IsSpace(c: char) {
    || c == ' ' || '\t' <= c <= '\r'
    || c == '\U{85}' || c == '\U{A0}' || c == '\U{1680}' || '\U{2000}' <= c <= '\U{200A}'
    || c == '\U{2028}' || c == '\U{2029}' || c == '\U{202F}' || c == '\U{205F}' || c == '\U{3000}'
  }

  const WHITE_SPACE: string :=
    "\t\n\U{B}\U{C}\r \U{85}\U{A0}\U{1680}\U{2000}\U{2001}\U{2002}\U{2003}\U{2004}\U{2005}\U{2006}\U{2007}" +
    "\U{2008}\U{2009}\U{200A}\U{2028}\U{2029}\U{202F}\U{205F}\U{3000}"

  /** White space is exactly the characters with that Unicode property. */
  lemma IsSpaceIff(c: char)
    ensures IsSpace(c) <==> c in WHITE_SPACE
  {
    var n := c as int;
    if 0x9 <= n <= 0xD {
      assert WHITE_SPACE[n - 0x9] == c;
    } else if 0x2000 <= n <= 0x200A {
      assert WHITE_SPACE[n - 0x2000 + 9] == c;
    } else {
      assert WHITE_SPACE[5] == ' ' && WHITE_SPACE[6] == '\U{85}' && WHITE_SPACE[7] == '\U{A0}' && WHITE_SPACE[8] == '\U{1680}';
      assert WHITE_SPACE[20] == '\U{2028}' && WHITE_SPACE[21] == '\U{2029}' && WHITE_SPACE[22] == '\U{202F}';
      assert WHITE_SPACE[23] == '\U{205F}' && WHITE_SPACE[24] == '\U{3000}';
    }
  }

  function TrimLeft(s: string): (r: string)
    ensures |r| <= |s|
  {
    if s != "" && IsSpace(s[0]) then TrimLeft(s[1..]) else s
  }

  function TrimRight(s: string): (r: string)
    ensures |r| <= |s|
  {
    if s != "" && IsSpace(s[|s| - 1]) then TrimRight(s[..|s| - 1]) else s
  }

  function Trim(s: string): (r: string)
    ensures |r| <= |s|
  {
    TrimRight(TrimLeft(s))
  }

  lemma {:induction false} TrimRightShape(s: string)
    ensures TrimRight(s) <= s && forall i :: |TrimRight(s)| <= i < |s| ==> IsSpace(s[i])
    ensures TrimRight(s) != "" ==> !IsSpace(TrimRight(s)[|TrimRight(s)| - 1])
    decreases |s|
  {
    if s != "" && IsSpace(s[|s| - 1]) {
      TrimRightShape(s[..|s| - 1]);
    }
  }

  lemma {:induction false} TrimLeftShape(s: string)
    ensures var n := |s| - |TrimLeft(s)|;
            && TrimLeft(s) == s[n..] && (forall i :: 0 <= i < n ==> IsSpace(s[i])) && (n < |s| ==> !IsSpace(s[n]))
    decreases |s|
  {
    if s != "" && IsSpace(s[0]) {
      TrimLeftShape(s[1..]);
      assert forall i :: 1 <= i < |s| ==> s[i] == s[1..][i - 1];
    }
  }

  /** Neither end is white space. */
  predicate Solid(s: string) {
    s != "" && !IsSpace(s[0]) && !IsSpace(s[|s| - 1])
  }

  lemma TrimSolid(s: string)
    requires Solid(s)
    ensures Trim(s) == s && Trim(" " + s) == s && Trim(s + " ") == s
  {
    assert (" " + s)[1..] == s;
    assert TrimLeft(" " + s) == TrimLeft(s);
    assert (s + " ")[..|s|] == s;
    assert TrimLeft(s + " ") == s + " ";
    assert TrimRight(s + " ") == TrimRight(s);
  }

  // ---------------------------------------------------------------- quote state

  /** Where a left-to-right scan stands; a backslash protects the next character inside a basic string. */
  datatype Quote = Outside | InBasic | InEscape | InLiteral

  function Next(q: Quote, c: char): Quote {
    match q
    case Outside => if c == '"' then InBasic else if c == '\'' then InLiteral else Outside
    case InBasic => if c == '\\' then InEscape else if c == '"' then Outside else InBasic
    case InEscape => InBasic
    case InLiteral => if c == '\'' then Outside else InLiteral
  }

  function Run(s: string, q: Quote): Quote {
    if s == "" then q else Run(s[1..], Next(q, s[0]))
  }

  lemma {:induction false} RunSnoc(s: string, c: char, q: Quote)
    ensures Run(s + [c], q) == Next(Run(s, q), c)
    decreases |s|
  {
    if s != "" {
      assert (s + [c])[1..] == s[1..] + [c];
      RunSnoc(s[1..], c, Next(q, s[0]));
    } else {
      assert (s + [c])[1..] == "";
    }
  }

  /** The first occurrence of a separator that no quotes enclose, or -1. */
  function Find(s: string, sep: char, q: Quote): (r: int)
    ensures -1 <= r < |s|
    ensures r >= 0 ==> s[r] == sep
    decreases |s|
  {
    if s == "" then -1
    else if q == Outside && s[0] == sep then 0
    else var r := Find(s[1..], sep, Next(q, s[0])); if r < 0 then -1 else r + 1
  }

  /** The position is the first at which the scan is outside every quote and meets the separator. */
  lemma {:induction false} FindMeaning(s: string, sep: char, q: Quote, i: nat)
    requires i <= |s|
    ensures Find(s, sep, q) == i <==>
            i < |s| && s[i] == sep && Run(s[..i], q) == Outside &&
            forall k :: 0 <= k < i ==> !(s[k] == sep && Run(s[..k], q) == Outside)
    decreases |s|
  {
    if s != "" {
      forall k | 0 < k <= |s| ensures Run(s[..k], q) == Run(s[1..][..k - 1], Next(q, s[0])) {
        assert s[..k][1..] == s[1..][..k - 1];
      }
      assert s[..0] == "";
      if i > 0 {
        FindMeaning(s[1..], sep, Next(q, s[0]), i - 1);
        var t := s[1..];
        assert forall k :: 0 <= k < |t| ==> t[k] == s[k + 1];
        if forall k :: 0 <= k < i ==> !(s[k] == sep && Run(s[..k], q) == Outside) {
          assert !(s[0] == sep && Run(s[..0], q) == Outside);
          forall k | 0 <= k < i - 1 ensures !(t[k] == sep && Run(t[..k], Next(q, s[0])) == Outside) {
            assert !(s[k + 1] == sep && Run(s[..k + 1], q) == Outside);
          }
        }
      }
    }
  }

  /** Scanning the text from state q meets no unquoted separator and ends outside quotes. */
  predicate Quiet(s: string, sep: char, q: Quote)
    decreases |s|
  {
    if s == "" then q == Outside else !(q == Outside && s[0] == sep) && Quiet(s[1..], sep, Next(q, s[0]))
  }

  lemma {:induction false} QuietConcat(a: string, b: string, sep: char, q: Quote)
    requires Quiet(a, sep, q) && Quiet(b, sep, Outside)
    ensures Quiet(a + b, sep, q)
    decreases |a|
  {
    if a == "" {
      assert a + b == b;
    } else {
      assert (a + b)[1..] == a[1..] + b;
      QuietConcat(a[1..], b, sep, Next(q, a[0]));
    }
  }

  /** A quiet text hides nothing: the separator after it is the one found. */
  lemma {:induction false} FindAfterQuiet(a: string, sep: char, rest: string, q: Quote)
    requires Quiet(a, sep, q)
    ensures Find(a + [sep] + rest, sep, q) == |a|
    decreases |a|
  {
    var s := a + [sep] + rest;
    if a == "" {
      assert s[0] == sep;
    } else {
      assert s[1..] == a[1..] + [sep] + rest && s[0] == a[0];
      FindAfterQuiet(a[1..], sep, rest, Next(q, a[0]));
    }
  }

  lemma {:induction false} FindQuietNone(a: string, sep: char, q: Quote)
    requires Quiet(a, sep, q)
    ensures Find(a, sep, q) == -1
    decreases |a|
  {
    if a != "" {
      FindQuietNone(a[1..], sep, Next(q, a[0]));
    }
  }

  /** The pieces between unquoted commas. */
  function Split(s: string): (parts: seq<string>)
    ensures 0 < |parts| <= |s| + 1 && forall p <- parts :: |p| <= |s|
    decreases |s|
  {
    var i := Find(s, ',', Outside);
    if i < 0 then [s] else [s[..i]] + Split(s[i + 1..])
  }

  // ---------------------------------------------------------------- strings and keys

  predicate IsHex(c: char) {
    '0' <= c <= '9' || 'a' <= c <= 'f' || 'A' <= c <= 'F'
  }

  function HexDigit(c: char): (d: nat)
    requires IsHex(c)
    ensures d < 16
  {
    if '0' <= c <= '9' then c as int - '0' as int
    else if 'a' <= c <= 'f' then c as int - 'a' as int + 10
    else c as int - 'A' as int + 10
  }

  function HexValue(s: string): nat
    requires forall i :: 0 <= i < |s| ==> IsHex(s[i])
  {
    if s == "" then 0 else 16 * HexValue(s[..|s| - 1]) + HexDigit(s[|s| - 1])
  }

  /** The digits of a number in base sixteen, as many as asked for. */
  function Hex(n: nat, width: nat, upper: bool): string {
    if width == 0 then ""
    else Hex(n / 16, width - 1, upper) + [(if upper then "0123456789ABCDEF" else "0123456789abcdef")[n % 16]]
  }

  function Sixteens(width: nat): nat {
    if width == 0 then 1 else 16 * Sixteens(width - 1)
  }

  /** A number written in base sixteen, in either case, is read back. */
  lemma {:induction false} HexRead(n: nat, width: nat, upper: bool)
    requires n < Sixteens(width)
    ensures |Hex(n, width, upper)| == width && forall i :: 0 <= i < width ==> IsHex(Hex(n, width, upper)[i])
    ensures HexValue(Hex(n, width, upper)) == n
    decreases width
  {
    if width > 0 {
      HexRead(n / 16, width - 1, upper);
      HexDigitRead(n % 16);
      var s := Hex(n, width, upper);
      assert s[..width - 1] == Hex(n / 16, width - 1, upper);
    }
  }

  lemma HexDigitRead(d: nat)
    requires d < 16
    ensures var lower, upper := "0123456789abcdef"[d], "0123456789ABCDEF"[d];
            IsHex(lower) && HexDigit(lower) == d && IsHex(upper) && HexDigit(upper) == d
  {
  }

  /** The digits are those of base sixteen, in either case. */
  lemma IsHexIff(c: char)
    ensures IsHex(c) <==> c in "0123456789abcdef" || c in "0123456789ABCDEF"
  {
    if IsHex(c) {
      var d := HexDigit(c);
      assert "0123456789abcdef"[d] == c || "0123456789ABCDEF"[d] == c;
    }
  }

  /** Every character is that of its own code; the codes of none are those of surrogates and those too large. */
  lemma RuneMeaning(c: char, code: nat)
    ensures Rune(c as int) == c
    ensures 0xD800 <= code <= 0xDFFF || code > 0x10FFFF ==> Rune(code) == '\U{FFFD}'
  {
  }

  /** What WriteRune writes for a code: an invalid one becomes the replacement character. */
  function Rune(code: nat): char {
    if code < 0xD800 || 0xE000 <= code < 0x110000 then code as char else REPLACEMENT
  }

  /** The character a one-letter escape stands for. */
  function Unescape(e: char): Option<char> {
    match e
    case 'n' => Some('\n')
    case 't' => Some('\t')
    case 'r' => Some('\r')
    case 'b' => Some(BACKSPACE)
    case 'f' => Some(FORM_FEED)
    case '"' => Some('"')
    case '\\' => Some('\\')
    case '/' => Some('/')
    case _ => None
  }

  function Prefixed(c: char, r: Option<(string, string)>): Option<(string, string)> {
    if r.Some? then Some(([c] + r.value.0, r.value.1)) else None
  }

  /** The inside of a basic string up to its closing quote: the value and what follows. A numeric escape
      contributes its character, and its digits are then read again as ordinary text. */
  function ScanBody(s: string): (r: Option<(string, string)>)
    ensures r.Some? ==> |r.value.1| < |s|
    decreases |s|
  {
    if s == "" then None
    else if s[0] == '"' then Some(("", s[1..]))
    else if s[0] != '\\' then Prefixed(s[0], ScanBody(s[1..]))
    else if |s| < 2 then None
    else if s[1] == 'u' || s[1] == 'U' then
      var width := if s[1] == 'u' then 4 else 8;
      if 2 + width > |s| || exists i :: 2 <= i < 2 + width && !IsHex(s[i]) then None
      else Prefixed(Rune(HexValue(s[2..2 + width])), ScanBody(s[2..]))
    else if Unescape(s[1]).None? then None
    else Prefixed(Unescape(s[1]).value, ScanBody(s[2..]))
  }

  /** A basic string at the start of the text. */
  function ScanBasic(s: string): (r: Option<(string, string)>)
    requires s != "" && s[0] == '"'
    ensures r.Some? ==> |r.value.1| < |s|
  {
    if "\"\"\"" <= s then None else ScanBody(s[1..])
  }

  function FindByte(s: string, c: char): (r: int)
    ensures -1 <= r < |s|
  {
    if s == "" then -1 else if s[0] == c then 0 else var r := FindByte(s[1..], c); if r < 0 then -1 else r + 1
  }

  /** A literal string at the start of the text: no escapes. */
  function ScanLiteral(s: string): (r: Option<(string, string)>)
    requires s != "" && s[0] == '\''
    ensures r.Some? ==> |r.value.1| < |s|
  {
    if "'''" <= s then None
    else var end := FindByte(s[1..], '\''); if end < 0 then None else Some((s[1..1 + end], s[2 + end..]))
  }

  predicate IsBare(c: char) {
    c == '-' || c == '_' || '0' <= c <= '9' || 'a' <= c <= 'z' || 'A' <= c <= 'Z'
  }

  function BareLength(s: string): (n: nat)
    ensures n <= |s|
  {
    if s != "" && IsBare(s[0]) then 1 + BareLength(s[1..]) else 0
  }

  /** One key segment, quoted or bare, and what follows. */
  function ScanKeySeg(s: string): (r: Option<(string, string)>)
    requires s != ""
    ensures r.Some? ==> |r.value.1| < |s|
  {
    if s[0] == '"' then ScanBasic(s)
    else if s[0] == '\'' then ScanLiteral(s)
    else var i := BareLength(s); if i == 0 then None else Some((s[..i], s[i..]))
  }

  /** A key of one segment; anything after it, a dot included, is an error. */
  function SingleKey(s: string): Option<string> {
    if s == "" then None
    else
      var r := ScanKeySeg(s);
      if r.None? || Trim(r.value.1) != "" then None else Some(r.value.0)
  }

  /** A section path: segments separated by dots, white space around them ignored. */
  function KeyPath(s: string): Option<seq<string>>
    decreases |s|
  {
    if s == "" then None
    else
      var r := ScanKeySeg(s);
      if r.None? then None
      else
        var rest := Trim(r.value.1);
        if rest == "" then Some([r.value.0])
        else if rest[0] != '.' then None
        else
          var more := KeyPath(Trim(rest[1..]));
          if more.None? then None else Some([r.value.0] + more.value)
  }

  // ---------------------------------------------------------------- values

  /** After a value or a header only white space or a comment may follow. */
  predicate EndOfLine(rest: string) {
    Trim(rest) == "" || Trim(rest)[0] == '#'
  }

  predicate AllDigits(s: string) {
    s != "" && forall i :: 0 <= i < |s| ==> '0' <= s[i] <= '9'
  }

  function Magnitude(s: string): nat
    requires forall i :: 0 <= i < |s| ==> '0' <= s[i] <= '9'
  {
    if s == "" then 0 else 10 * Magnitude(s[..|s| - 1]) + (s[|s| - 1] as int - '0' as int)
  }

  const INT64_LIMIT: int := 0x8000_0000_0000_0000

  /** A decimal 64-bit integer with an optional sign. */
  function ParseInt(token: string): Option<int> {
    var signed := token != "" && (token[0] == '+' || token[0] == '-');
    var body := if signed then token[1..] else token;
    if !AllDigits(body) then None
    else
      var m: int := Magnitude(body);
      var n := if signed && token[0] == '-' then -m else m;
      if -INT64_LIMIT <= n < INT64_LIMIT then Some(n) else None
  }

  function BlankAt(s: string): (n: nat)
    ensures n <= |s|
  {
    if s == "" || s[0] == ' ' || s[0] == '\t' then 0 else 1 + BlankAt(s[1..])
  }

  /** A boolean or an integer, up to the first blank. */
  function ParseToken(s: string): Option<Node> {
    var n := BlankAt(s);
    if !EndOfLine(s[n..]) then None
    else if s[..n] == "true" then Some(Bool(true))
    else if s[..n] == "false" then Some(Bool(false))
    else var i := ParseInt(s[..n]); if i.Some? then Some(Int(i.value)) else None
  }

  function Whole(r: Option<(string, string)>): Option<Node> {
    if r.Some? && EndOfLine(r.value.1) then Some(Str(r.value.0)) else None
  }

  function ParseValue(s: string): Option<Node>
    decreases |s|, |s| + 3
  {
    if s == "" then None
    else if s[0] == '"' then Whole(ScanBasic(s))
    else if s[0] == '\'' then Whole(ScanLiteral(s))
    else if s[0] == '[' then ParseArray(s)
    else if s[0] == '{' then ParseInline(s)
    else ParseToken(s)
  }

  /** A one-line array. */
  function ParseArray(s: string): Option<Node>
    requires s != "" && s[0] == '['
    decreases |s|, |s| + 2
  {
    var end := Find(s, ']', Outside);
    if end < 0 || !EndOfLine(s[end + 1..]) then None
    else
      var items := ParseItems(Split(s[1..end]), |s|);
      if items.Some? then Some(Arr(items.value)) else None
  }

  /** The elements; only the last piece may be empty, and no element may be an array or a table. */
  function ParseItems(parts: seq<string>, bound: nat): Option<seq<Node>>
    requires |parts| <= bound && forall p <- parts :: |p| < bound
    decreases bound, |parts|
  {
    if parts == [] then Some([])
    else if Trim(parts[0]) == "" then if |parts| == 1 then Some([]) else None
    else
      var v := ParseValue(Trim(parts[0]));
      if v.None? || v.value.Table? || v.value.Arr? then None
      else
        var rest := ParseItems(parts[1..], bound);
        if rest.None? then None else Some([v.value] + rest.value)
  }

  /** A one-line table. */
  function ParseInline(s: string): Option<Node>
    requires s != "" && s[0] == '{'
    decreases |s|, |s| + 2
  {
    var end := Find(s, '}', Outside);
    if end < 0 || !EndOfLine(s[end + 1..]) then None
    else
      var body := Trim(s[1..end]);
      if body == "" then Some(Table(map[]))
      else
        var fields := ParseFields(Split(body), |s|, map[]);
        if fields.Some? then Some(Table(fields.value)) else None
  }

  /** The entries of an inline table, added to those read before. */
  function ParseFields(parts: seq<string>, bound: nat, sofar: map<string, Node>): Option<map<string, Node>>
    requires |parts| <= bound && forall p <- parts :: |p| < bound
    decreases bound, |parts|
  {
    if parts == [] then Some(sofar)
    else
      var part := Trim(parts[0]);
      var eq := Find(part, '=', Outside);
      if eq < 0 then None
      else
        var key, v := SingleKey(Trim(part[..eq])), ParseValue(Trim(part[eq + 1..]));
        if key.None? || v.None? || v.value.Table? || key.value in sofar then None
        else ParseFields(parts[1..], bound, sofar[key.value := v.value])
  }

  // ---------------------------------------------------------------- lines

  datatype Content = Nothing | Header(path: seq<string>) | Assign(key: string, value: Node)

  /** What one line says. */
  function ReadLine(raw: string): Option<Content> {
    var line := Trim(raw);
    if line == "" || line[0] == '#' then Some(Nothing)
    else if line[0] == '[' then
      if "[[" <= line then None
      else
        var end := Find(line, ']', Outside);
        if end < 0 || !EndOfLine(line[end + 1..]) then None
        else
          var path := KeyPath(Trim(line[1..end]));
          if path.None? then None else Some(Header(path.value))
    else
      var eq := Find(line, '=', Outside);
      if eq < 0 then None
      else
        var key, v := SingleKey(Trim(line[..eq])), ParseValue(Trim(line[eq + 1..]));
        if key.None? || v.None? then None else Some(Assign(key.value, v.value))
  }

  /** The tree built so far, the path of the current section, and the headers seen. */
  datatype State = State(root: map<string, Node>, current: seq<string>, declared: set<string>)

  /** The identity of a header: its segments joined with NUL. */
  function HeaderId(path: seq<string>): string
    requires path != []
  {
    if |path| == 1 then path[0] else path[0] + "\0" + HeaderId(path[1..])
  }

  /** Creates or reuses a table for every segment; a value in the way is an error. */
  function EnsureTable(root: map<string, Node>, path: seq<string>): Option<map<string, Node>>
    decreases |path|
  {
    if path == [] then Some(root)
    else if path[0] in root && !root[path[0]].Table? then None
    else
      var child := EnsureTable(if path[0] in root then root[path[0]].fields else map[], path[1..]);
      if child.None? then None else Some(root[path[0] := Table(child.value)])
  }

  /** Adds an entry to the table at the path; a key already there is an error. */
  function AddEntry(root: map<string, Node>, path: seq<string>, key: string, v: Node): Option<map<string, Node>>
    decreases |path|
  {
    if path == [] then
      if key in root then None else Some(root[key := v])
    else if path[0] !in root || !root[path[0]].Table? then None
    else
      var child := AddEntry(root[path[0]].fields, path[1..], key, v);
      if child.None? then None else Some(root[path[0] := Table(child.value)])
  }

  function Step(st: State, c: Content): Option<State> {
    match c
    case Nothing => Some(st)
    case Header(path) =>
      if path == [] || HeaderId(path) in st.declared then None
      else
        var root := EnsureTable(st.root, path);
        if root.None? then None else Some(State(root.value, path, st.declared + {HeaderId(path)}))
    case Assign(key, v) =>
      var root := AddEntry(st.root, st.current, key, v);
      if root.None? then None else Some(st.(root := root.value))
  }

  /** The state after the lines, or the number of the first line that is refused. */
  function Build(contents: seq<Option<Content>>, st: State, lineNo: nat): Result<State, nat>
    decreases |contents|
  {
    if contents == [] then Ok(st)
    else if contents[0].None? then Err(lineNo)
    else
      var next := Step(st, contents[0].value);
      if next.None? then Err(lineNo) else Build(contents[1..], next.value, lineNo + 1)
  }

  function Lines(text: string): (ls: seq<string>)
    ensures |ls| > 0
  {
    var i := FindByte(text, '\n');
    if i < 0 then [text] else [text[..i]] + Lines(text[i + 1..])
  }

  function DropReturns(text: string): string {
    if |text| < 2 then text
    else if text[0] == '\r' && text[1] == '\n' then "\n" + DropReturns(text[2..])
    else [text[0]] + DropReturns(text[1..])
  }

  function ReadAll(ls: seq<string>): seq<Option<Content>> {
    seq(|ls|, i requires 0 <= i < |ls| => ReadLine(ls[i]))
  }

  const START := State(map[], [], {})

  function WithoutMark(text: string): string {
    if text != "" && text[0] == '\U{FEFF}' then text[1..] else text
  }

  /** The tree, or the number of the first offending line. */
  function Parse(text: string): Result<map<string, Node>, nat> {
    var r := Build(ReadAll(Lines(DropReturns(WithoutMark(text)))), START, 1);
    if r.Ok? then Ok(r.value.root) else Err(r.error)
  }
}
