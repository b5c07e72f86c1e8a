/** The parser of backend/pkg/mcp/toml_subset.go as it runs: index-driven scans with a quote state, builders
    filled step by step, and one loop over the lines; each proved to compute its function of module Toml. */
module TomlParser {
  import opened Wrappers
  import opened Toml

  /** The first separator outside quotes, or -1. */
  method IndexUnquoted(s: string, sep: char) returns (r: int)
    requires sep != '"' && sep != '\''
    ensures r == Find(s, sep, Outside)
  {
    var q := Outside;
    var i := 0;
    assert s[0..] == s;
    while i < |s|
      invariant i <= |s| && Find(s, sep, Outside) == Later(i, Find(s[i..], sep, q))
    {
      var c := s[i];
      FindTurn(s, i, sep, q);
      if q == Outside && c == sep {
        return i;
      }
      q := Next(q, c);
      i := i + 1;
    }
    assert s[i..] == "";
    return -1;
  }

  /** A position found in the tail, as a position in the whole. */
  function Later(i: nat, r: int): int {
    if r < 0 then -1 else i + r
  }

  /** Cuts at every comma outside quotes. */
  method SplitTOMLLine(s: string) returns (parts: seq<string>)
    ensures parts == Split(s)
  {
    hide Split, Find, Next;
    parts := [];
    var q, start, i := Outside, 0, 0;
    assert s[0..] == s && parts + Split(s) == Split(s);
    while i < |s|
      invariant start <= i <= |s|
      invariant parts + Split(s[start..]) == Split(s)
      invariant Find(s[start..], ',', Outside) == Later(i - start, Find(s[i..], ',', q))
    {
      var c := s[i];
      FindTurn(s, i, ',', q);
      if q == Outside && c == ',' {
        SplitCut(s[start..], i - start);
        SliceOfTail(s, start, i);
        parts := parts + [s[start..i]];
        start, i := i + 1, i + 1;
      } else {
        q, i := Next(q, c), i + 1;
      }
    }
    assert s[i..] == "";
    FindNothing(',', q);
    SplitLast(s[start..]);
    parts := parts + [s[start..]];
  }

  lemma FindNothing(sep: char, q: Quote)
    ensures Find("", sep, q) == -1
  {
  }

  /** One turn of a scan for a separator. */
  lemma FindTurn(s: string, i: nat, sep: char, q: Quote)
    requires i < |s|
    ensures Find(s[i..], sep, q) ==
            if q == Outside && s[i] == sep then 0 else Later(1, Find(s[i + 1..], sep, Next(q, s[i])))
  {
    assert s[i..][0] == s[i] && s[i..][1..] == s[i + 1..];
  }

  lemma SliceOfTail(s: string, start: nat, i: nat)
    requires start <= i < |s|
    ensures s[start..][..i - start] == s[start..i] && s[start..][i - start + 1..] == s[i + 1..]
  {
  }

  lemma SplitLast(s: string)
    requires Find(s, ',', Outside) == -1
    ensures Split(s) == [s]
  {
  }

  lemma SplitCut(s: string, i: nat)
    requires Find(s, ',', Outside) == i
    ensures i < |s| && Split(s) == [s[..i]] + Split(s[i + 1..])
  {
  }

  /** What was built so far in front of the rest of a scan. */
  function Built(sb: string, r: Option<(string, string)>): Option<(string, string)> {
    if r.Some? then Some((sb + r.value.0, r.value.1)) else None
  }

  lemma BuiltNothing(r: Option<(string, string)>)
    ensures Built("", r) == r
  {
    if r.Some? {
      assert "" + r.value.0 == r.value.0;
    }
  }

  lemma BuiltPrefixed(sb: string, c: char, r: Option<(string, string)>)
    ensures Built(sb, Prefixed(c, r)) == Built(sb + [c], r)
  {
    if r.Some? {
      assert sb + ([c] + r.value.0) == (sb + [c]) + r.value.0;
    }
  }

  /** A basic string: the value and what follows it. */
  method ScanBasicString(s: string) returns (r: Option<(string, string)>)
    requires s != "" && s[0] == '"'
    ensures r == ScanBasic(s)
  {
    if "\"\"\"" <= s {
      return None;
    }
    var sb, i := "", 1;
    BuiltNothing(ScanBody(s[1..]));
    while i < |s|
      invariant 1 <= i <= |s| && ScanBody(s[1..]) == Built(sb, ScanBody(s[i..]))
    {
      var done, c, step := ScanStep(s, i);
      if done.Some? {
        assert sb + "" == sb;
        return if done.value then Some((sb, s[i + 1..])) else None;
      }
      BuiltPrefixed(sb, c, ScanBody(s[i + step..]));
      sb, i := sb + [c], i + step;
    }
    assert s[i..] == "";
    return None;
  }

  /** One turn of the string scan: the end of the string, an error, or one character and how far to move. */
  method ScanStep(s: string, i: nat) returns (done: Option<bool>, c: char, step: nat)
    requires i < |s|
    ensures 1 <= step <= 2 && i + step <= |s|
    ensures done == Some(true) ==> ScanBody(s[i..]) == Some(("", s[i + 1..]))
    ensures done == Some(false) ==> ScanBody(s[i..]) == None
    ensures done == None ==> ScanBody(s[i..]) == Prefixed(c, ScanBody(s[i + step..]))
  {
    var t := s[i..];
    assert t[0] == s[i] && t[1..] == s[i + 1..];
    c, step, done := s[i], 1, None;
    if s[i] == '"' {
      done := Some(true);
    } else if s[i] == '\\' {
      if i + 1 >= |s| {
        return Some(false), c, 1;
      }
      assert t[1] == s[i + 1] && t[2..] == s[i + 2..];
      step := 2;
      var e := s[i + 1];
      if e == 'u' || e == 'U' {
        var width := if e == 'u' then 4 else 8;
        if i + 2 + width > |s| {
          done := Some(false);
        } else {
          var hex := s[i + 2..i + 2 + width];
          assert hex == t[2..2 + width] && forall k :: 0 <= k < width ==> hex[k] == t[k + 2];
          if exists k :: 0 <= k < |hex| && !IsHex(hex[k]) {
            done := Some(false);
          } else {
            assert forall k :: 2 <= k < 2 + width ==> t[k] == hex[k - 2];
            c := Rune(HexValue(hex));
          }
        }
      } else {
        match e {
          case 'n' => c := '\n';
          case 't' => c := '\t';
          case 'r' => c := '\r';
          case 'b' => c := BACKSPACE;
          case 'f' => c := FORM_FEED;
          case '"' | '\\' | '/' => c := e;
          case _ => done := Some(false);
        }
      }
    }
  }

  /** One key segment: quoted, or the longest run of bare characters. */
  method ScanTOMLKeySeg(s: string) returns (r: Option<(string, string)>)
    requires s != ""
    ensures r == ScanKeySeg(s)
  {
    if s[0] == '"' {
      r := ScanBasicString(s);
      return;
    }
    if s[0] == '\'' {
      return ScanLiteral(s);
    }
    var i := 0;
    assert s[0..] == s;
    while i < |s| && (s[i] == '-' || s[i] == '_' || '0' <= s[i] <= '9' || 'a' <= s[i] <= 'z' || 'A' <= s[i] <= 'Z')
      invariant i <= |s| && BareLength(s) == i + BareLength(s[i..])
    {
      assert s[i..][0] == s[i] && s[i..][1..] == s[i + 1..];
      i := i + 1;
    }
    assert i < |s| ==> s[i..][0] == s[i];
    r := if i == 0 then None else Some((s[..i], s[i..]));
  }

  method ParseTOMLSingleKey(s: string) returns (r: Option<string>)
    ensures r == SingleKey(s)
  {
    if s == "" {
      return None;
    }
    var seg := ScanTOMLKeySeg(s);
    r := if seg.None? || Trim(seg.value.1) != "" then None else Some(seg.value.0);
  }

  function PathBuilt(parts: seq<string>, r: Option<seq<string>>): Option<seq<string>> {
    if r.Some? then Some(parts + r.value) else None
  }

  /** The segments of a section header. */
  method ParseTOMLKeyPath(s: string) returns (r: Option<seq<string>>)
    ensures r == KeyPath(Trim(s))
  {
    hide Trim, ScanKeySeg;
    var parts: seq<string> := [];
    var rest := Trim(s);
    if rest == "" {
      return None;
    }
    PathNothing(KeyPath(rest));
    while true
      invariant rest != "" && KeyPath(Trim(s)) == PathBuilt(parts, KeyPath(rest))
      decreases |rest|
    {
      var seg := ScanTOMLKeySeg(rest);
      if seg.None? {
        return None;
      }
      var tail := Trim(seg.value.1);
      if tail == "" {
        return Some(parts + [seg.value.0]);
      }
      if tail[0] != '.' {
        return None;
      }
      var next := Trim(tail[1..]);
      if next == "" {
        return None;
      }
      PathStep(parts, seg.value.0, KeyPath(next));
      parts := parts + [seg.value.0];
      rest := next;
    }
  }

  lemma PathNothing(r: Option<seq<string>>)
    ensures PathBuilt([], r) == r
  {
    if r.Some? {
      assert [] + r.value == r.value;
    }
  }

  lemma PathStep(parts: seq<string>, seg: string, r: Option<seq<string>>)
    ensures PathBuilt(parts, if r.None? then None else Some([seg] + r.value)) == PathBuilt(parts + [seg], r)
  {
    if r.Some? {
      assert parts + ([seg] + r.value) == (parts + [seg]) + r.value;
    }
  }

  /** One value with its end-of-line check. */
  method ParseTOMLValue(s: string) returns (r: Option<Node>)
    ensures r == ParseValue(s)
    decreases |s|, |s| + 3
  {
    if s == "" {
      return None;
    }
    if s[0] == '"' {
      var v := ScanBasicString(s);
      return Whole(v);
    }
    if s[0] == '\'' {
      return Whole(ScanLiteral(s));
    }
    if s[0] == '[' {
      r := ParseTOMLArray(s);
      return;
    }
    if s[0] == '{' {
      r := ParseTOMLInlineTable(s);
      return;
    }
    r := ParseToken(s);
  }

  function ItemsBuilt(items: seq<Node>, r: Option<seq<Node>>): Option<seq<Node>> {
    if r.Some? then Some(items + r.value) else None
  }

  method ParseTOMLArray(s: string) returns (r: Option<Node>)
    requires s != "" && s[0] == '['
    ensures r == ParseArray(s)
    decreases |s|, |s| + 2
  {
    var end := IndexUnquoted(s, ']');
    if end < 0 || !EndOfLine(s[end + 1..]) {
      return None;
    }
    var parts := SplitTOMLLine(s[1..end]);
    var items := ParseTOMLItems(parts, |s|);
    r := if items.Some? then Some(Arr(items.value)) else None;
  }

  /** The loop over the pieces of an array. */
  method ParseTOMLItems(parts: seq<string>, bound: nat) returns (r: Option<seq<Node>>)
    requires |parts| <= bound && forall p <- parts :: |p| < bound
    ensures r == ParseItems(parts, bound)
    decreases bound, |parts|
  {
    hide ParseItems, Trim, ParseValue;
    var items: seq<Node> := [];
    assert parts[0..] == parts;
    ItemsNothing(ParseItems(parts, bound));
    for idx := 0 to |parts|
      invariant ParseItems(parts, bound) == ItemsBuilt(items, ParseItems(parts[idx..], bound))
    {
      ItemsTurn(parts, idx, bound);
      var part := Trim(parts[idx]);
      if part == "" {
        if idx == |parts| - 1 {
          assert parts[idx + 1..] == [];
          continue;
        }
        return None;
      }
      assert parts[idx] in parts;
      var v := ParseTOMLValue(part);
      if v.None? || v.value.Table? || v.value.Arr? {
        return None;
      }
      ItemsStep(items, v.value, ParseItems(parts[idx + 1..], bound));
      items := items + [v.value];
    }
    assert parts[|parts|..] == [];
    ItemsEnd(items, bound);
    r := Some(items);
  }

  lemma ItemsNothing(r: Option<seq<Node>>)
    ensures ItemsBuilt([], r) == r
  {
    if r.Some? {
      assert [] + r.value == r.value;
    }
  }

  lemma ItemsEnd(items: seq<Node>, bound: nat)
    ensures ItemsBuilt(items, ParseItems([], bound)) == Some(items)
  {
    assert items + [] == items;
  }

  /** One turn of the loop over the pieces. */
  lemma ItemsTurn(parts: seq<string>, idx: nat, bound: nat)
    requires |parts| <= bound && (forall p <- parts :: |p| < bound) && idx < |parts|
    ensures Trim(parts[idx]) == "" ==>
              ParseItems(parts[idx..], bound) == if idx == |parts| - 1 then ParseItems([], bound) else None
    ensures Trim(parts[idx]) != "" ==>
              var v := ParseValue(Trim(parts[idx]));
              var rest := ParseItems(parts[idx + 1..], bound);
              ParseItems(parts[idx..], bound) ==
              if v.None? || v.value.Table? || v.value.Arr? || rest.None? then None else Some([v.value] + rest.value)
  {
    hide Trim, ParseValue;
    assert parts[idx..][0] == parts[idx] && parts[idx..][1..] == parts[idx + 1..];
  }

  lemma ItemsStep(items: seq<Node>, v: Node, r: Option<seq<Node>>)
    ensures ItemsBuilt(items, if r.None? then None else Some([v] + r.value)) == ItemsBuilt(items + [v], r)
  {
    if r.Some? {
      assert items + ([v] + r.value) == (items + [v]) + r.value;
    }
  }

  method ParseTOMLInlineTable(s: string) returns (r: Option<Node>)
    requires s != "" && s[0] == '{'
    ensures r == ParseInline(s)
    decreases |s|, |s| + 2
  {
    var end := IndexUnquoted(s, '}');
    if end < 0 || !EndOfLine(s[end + 1..]) {
      return None;
    }
    var body := Trim(s[1..end]);
    if body == "" {
      return Some(Table(map[]));
    }
    var parts := SplitTOMLLine(body);
    var fields := ParseTOMLFields(parts, |s|);
    r := if fields.Some? then Some(Table(fields.value)) else None;
  }

  /** The loop over the entries of an inline table. */
  method ParseTOMLFields(parts: seq<string>, bound: nat) returns (r: Option<map<string, Node>>)
    requires |parts| <= bound && forall p <- parts :: |p| < bound
    ensures r == ParseFields(parts, bound, map[])
    decreases bound, |parts|
  {
    hide ParseFields, Trim, ParseValue, SingleKey, Find;
    var m: map<string, Node> := map[];
    assert parts[0..] == parts;
    for idx := 0 to |parts|
      invariant ParseFields(parts, bound, map[]) == ParseFields(parts[idx..], bound, m)
    {
      FieldsTurn(parts, idx, bound, m);
      assert parts[idx] in parts;
      var part := Trim(parts[idx]);
      var eq := IndexUnquoted(part, '=');
      if eq < 0 {
        return None;
      }
      var key := ParseTOMLSingleKey(Trim(part[..eq]));
      var v := ParseTOMLValue(Trim(part[eq + 1..]));
      if key.None? || v.None? || v.value.Table? || key.value in m {
        return None;
      }
      m := m[key.value := v.value];
    }
    assert parts[|parts|..] == [];
    FieldsEnd(bound, m);
    r := Some(m);
  }

  lemma FieldsEnd(bound: nat, m: map<string, Node>)
    ensures ParseFields([], bound, m) == Some(m)
  {
  }

  /** One turn of the loop over the entries. */
  lemma FieldsTurn(parts: seq<string>, idx: nat, bound: nat, m: map<string, Node>)
    requires |parts| <= bound && (forall p <- parts :: |p| < bound) && idx < |parts|
    ensures var part := Trim(parts[idx]);
            var eq := Find(part, '=', Outside);
            if eq < 0 then ParseFields(parts[idx..], bound, m) == None
            else
              var key, v := SingleKey(Trim(part[..eq])), ParseValue(Trim(part[eq + 1..]));
              ParseFields(parts[idx..], bound, m) ==
              if key.None? || v.None? || v.value.Table? || key.value in m then None
              else ParseFields(parts[idx + 1..], bound, m[key.value := v.value])
  {
    hide Trim, ParseValue, SingleKey, Find;
    assert parts[idx..][0] == parts[idx] && parts[idx..][1..] == parts[idx + 1..];
  }

  /** One line: nothing, a header, or an entry. */
  method ReadTOMLLine(raw: string) returns (r: Option<Content>)
    ensures r == ReadLine(raw)
  {
    hide Trim, ParseValue, SingleKey, KeyPath, Find, EndOfLine;
    var line := Trim(raw);
    if line == "" || line[0] == '#' {
      return Some(Nothing);
    }
    if line[0] == '[' {
      if "[[" <= line {
        return None;
      }
      var end := IndexUnquoted(line, ']');
      if end < 0 || !EndOfLine(line[end + 1..]) {
        return None;
      }
      var path := ParseTOMLKeyPath(line[1..end]);
      return if path.None? then None else Some(Header(path.value));
    }
    var eq := IndexUnquoted(line, '=');
    if eq < 0 {
      return None;
    }
    var key := ParseTOMLSingleKey(Trim(line[..eq]));
    var v := ParseTOMLValue(Trim(line[eq + 1..]));
    r := if key.None? || v.None? then None else Some(Assign(key.value, v.value));
  }

  /** The whole text, line by line; the first line that cannot be read or conflicts ends it with its number. */
  method ParseTOMLSubset(text: string) returns (r: Result<map<string, Node>, nat>)
    ensures r == Parse(text)
  {
    hide ReadLine, Step, Lines, DropReturns, WithoutMark;
    var ls := Lines(DropReturns(WithoutMark(text)));
    ghost var all := ReadAll(ls);
    var st := START;
    assert all[0..] == all;
    for i := 0 to |ls|
      invariant Build(all, START, 1) == Build(all[i..], st, i + 1)
    {
      assert all[i..][0] == all[i] == ReadLine(ls[i]) && all[i..][1..] == all[i + 1..];
      var content := ReadTOMLLine(ls[i]);
      if content.None? {
        return Err(i + 1);
      }
      var next := Step(st, content.value);
      if next.None? {
        return Err(i + 1);
      }
      st := next.value;
    }
    assert all[|ls|..] == [];
    r := Ok(st.root);
  }
}
