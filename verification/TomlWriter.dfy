/** Every tree the subset can hold is written and parsed back: strings and keys of any characters, 64-bit
    integers, booleans, arrays of these, and tables within tables (backend/pkg/mcp/toml_subset.go). */
module TomlWriter {
  import opened Wrappers
  import opened Toml
  import opened TomlRoundTrip
  import opened TomlDepartures
  import opened TomlTree
  import opened TomlLayout

  predicate IsScalar(n: Node) {
    n.Str? || n.Bool? || (n.Int? && -INT64_LIMIT <= n.n < INT64_LIMIT)
  }

  /** What the parser can return: scalars, arrays of scalars, and tables of these. */
  ghost predicate TreeOk(n: Node) {
    match n
    case Arr(items) => forall i :: 0 <= i < |items| ==> IsScalar(items[i])
    case Table(fields) => forall k <- fields.Keys :: TreeOk(fields[k])
    case _ => IsScalar(n)
  }

  // ---------------------------------------------------------------- values

  function ScalarOf(n: Node): Scalar
    requires IsScalar(n)
  {
    match n
    case Str(s) => Scalar.Line(Quoted(s))
    case Int(i) => Whole(i)
    case Bool(b) => Flag(b)
  }

  function ScalarsOf(items: seq<Node>): (r: seq<Scalar>)
    requires forall i :: 0 <= i < |items| ==> IsScalar(items[i])
  {
    if items == [] then [] else [ScalarOf(items[0])] + ScalarsOf(items[1..])
  }

  lemma {:induction false} ScalarsOfFacts(items: seq<Node>)
    requires forall i :: 0 <= i < |items| ==> IsScalar(items[i])
    ensures forall i :: 0 <= i < |ScalarsOf(items)| ==> ScalarOk(ScalarsOf(items)[i])
    ensures Nodes(ScalarsOf(items)) == items
    decreases |items|
  {
    if items != [] {
      ScalarsOfFacts(items[1..]);
      assert ScalarsOf(items)[1..] == ScalarsOf(items[1..]);
      assert ScalarNode(ScalarOf(items[0])) == items[0];
    }
  }

  function ValueOf(n: Node): Value
    requires TreeOk(n) && !n.Table?
  {
    if n.Arr? then Many(ScalarsOf(n.items)) else One(ScalarOf(n))
  }

  lemma ValueOfFacts(n: Node)
    requires TreeOk(n) && !n.Table?
    ensures ValueOk(ValueOf(n)) && ValueNode(ValueOf(n)) == Some(n)
  {
    if n.Arr? {
      ScalarsOfFacts(n.items);
    }
  }

  // ---------------------------------------------------------------- tables

  /** The elements of a set in some order. */
  ghost function Listed(s: set<string>): (ks: seq<string>)
    ensures |ks| == |s| && (forall k :: k in ks <==> k in s)
    ensures forall i, j :: 0 <= i < j < |ks| ==> ks[i] != ks[j]
  {
    if s == {} then []
    else
      var k :| k in s;
      [k] + Listed(s - {k})
  }

  ghost function LinesOf(t: Node, ks: seq<string>): (ss: seq<Line>)
    requires t.Table? && TreeOk(t) && forall k <- ks :: k in t.fields
    decreases |ks|
  {
    if ks == [] then []
    else if t.fields[ks[0]].Table? then LinesOf(t, ks[1..])
    else [Line.Line(Quoted(ks[0]), ValueOf(t.fields[ks[0]]))] + LinesOf(t, ks[1..])
  }

  ghost function SectionsOf(t: Node, ks: seq<string>): Sections
    requires t.Table? && TreeOk(t) && |ks| <= |t.fields| && forall k <- ks :: k in t.fields
    decreases t, |ks|
  {
    if ks == [] then NoMore
    else if t.fields[ks[0]].Table? then Sub(Quoted(ks[0]), LayoutOf(t.fields[ks[0]]), SectionsOf(t, ks[1..]))
    else SectionsOf(t, ks[1..])
  }

  /** A way of writing a table: its values in some order, then its tables. */
  ghost function LayoutOf(t: Node): Layout
    requires t.Table? && TreeOk(t)
    decreases t, |t.fields| + 1
  {
    var ks := Listed(t.fields.Keys);
    Layout(LinesOf(t, ks), SectionsOf(t, ks))
  }

  lemma {:induction false} LinesFacts(t: Node, ks: seq<string>)
    requires t.Table? && TreeOk(t) && forall k <- ks :: k in t.fields
    ensures forall i :: 0 <= i < |LinesOf(t, ks)| ==>
              var line := LinesOf(t, ks)[i];
              && TextOk(line.key) && ValueOk(line.value) && line.key.text in ks
              && !t.fields[line.key.text].Table? && ValueNode(line.value) == Some(t.fields[line.key.text])
    ensures (forall i, j :: 0 <= i < j < |ks| ==> ks[i] != ks[j]) ==>
              forall i, j :: 0 <= i < j < |LinesOf(t, ks)| ==> LinesOf(t, ks)[i].key.text != LinesOf(t, ks)[j].key.text
    decreases |ks|
  {
    hide ValueOf, ValueOk, ValueNode, TreeOk;
    if ks != [] {
      LinesFacts(t, ks[1..]);
      assert ks == [ks[0]] + ks[1..];
      if !t.fields[ks[0]].Table? {
        TreeField(t, ks[0]);
        ValueOfFacts(t.fields[ks[0]]);
      }
    }
  }

  lemma TreeField(t: Node, k: string)
    requires t.Table? && TreeOk(t) && k in t.fields
    ensures TreeOk(t.fields[k])
  {
  }

  lemma {:induction false} SectionsFacts(t: Node, ks: seq<string>)
    requires t.Table? && TreeOk(t) && |ks| <= |t.fields| && forall k <- ks :: k in t.fields
    ensures SectionsWritable(SectionsOf(t, ks)) && SectionsReadable(SectionsOf(t, ks))
    ensures forall key :: NamedIn(SectionsOf(t, ks), key) <==> key in ks && t.fields[key].Table?
    ensures (forall i, j :: 0 <= i < j < |ks| ==> ks[i] != ks[j]) ==> SectionsApart(SectionsOf(t, ks))
    decreases t, |ks|
  {
    hide LayoutOf, Writable, Readable, KeysApart, TreeOk;
    if ks != [] {
      SectionsFacts(t, ks[1..]);
      assert ks == [ks[0]] + ks[1..];
      if t.fields[ks[0]].Table? {
        TreeField(t, ks[0]);
        LayoutFacts(t.fields[ks[0]]);
        if forall i, j :: 0 <= i < j < |ks| ==> ks[i] != ks[j] {
          assert ks[0] !in ks[1..];
        }
      }
    }
  }

  lemma {:induction false} LayoutFacts(t: Node)
    requires t.Table? && TreeOk(t)
    ensures Writable(LayoutOf(t)) && Readable(LayoutOf(t)) && KeysApart(LayoutOf(t))
    decreases t, |t.fields| + 1
  {
    hide TreeOk, LinesOf, SectionsOf, Writable, Readable, KeysApart;
    var ks := Listed(t.fields.Keys);
    LinesFacts(t, ks);
    SectionsFacts(t, ks);
    PartsMake(t, ks);
  }

  lemma PartsMake(t: Node, ks: seq<string>)
    requires t.Table? && TreeOk(t) && |ks| <= |t.fields| && forall k <- ks :: k in t.fields
    requires forall i, j :: 0 <= i < j < |ks| ==> ks[i] != ks[j]
    requires SectionsWritable(SectionsOf(t, ks)) && SectionsReadable(SectionsOf(t, ks)) && SectionsApart(SectionsOf(t, ks))
    requires forall key :: NamedIn(SectionsOf(t, ks), key) <==> key in ks && t.fields[key].Table?
    ensures var l := Layout(LinesOf(t, ks), SectionsOf(t, ks)); Writable(l) && Readable(l) && KeysApart(l)
  {
    hide TreeOk, LinesOf, SectionsOf, TextOk, ValueOk, ValueNode, SectionsWritable, SectionsReadable, SectionsApart, NamedIn;
    LinesFacts(t, ks);
  }

  lemma {:induction false} LinesTree(t: Node, ks: seq<string>, m: map<string, Node>)
    requires t.Table? && TreeOk(t) && forall k <- ks :: k in t.fields
    ensures forall i :: 0 <= i < |LinesOf(t, ks)| ==> ValueNode(LinesOf(t, ks)[i].value).Some?
    ensures forall key :: key in AddSettings(m, LinesOf(t, ks)) <==> key in m || (key in ks && !t.fields[key].Table?)
    ensures forall key <- AddSettings(m, LinesOf(t, ks)).Keys ::
              AddSettings(m, LinesOf(t, ks))[key] == if key in ks && !t.fields[key].Table? then t.fields[key] else m[key]
    decreases |ks|
  {
    hide ValueOf, ValueNode, TreeOk;
    LinesFacts(t, ks);
    if ks != [] {
      assert ks == [ks[0]] + ks[1..];
      var v := t.fields[ks[0]];
      if v.Table? {
        LinesTree(t, ks[1..], m);
      } else {
        TreeField(t, ks[0]);
        ValueOfFacts(v);
        LinesTree(t, ks[1..], m[ks[0] := v]);
        var lines := LinesOf(t, ks);
        assert lines[0].value == ValueOf(v) && lines[0].key.text == ks[0] && lines[1..] == LinesOf(t, ks[1..]);
      }
    }
  }

  lemma {:induction false} SectionsTree(t: Node, ks: seq<string>, m: map<string, Node>)
    requires t.Table? && TreeOk(t) && |ks| <= |t.fields| && forall k <- ks :: k in t.fields
    ensures SectionsReadable(SectionsOf(t, ks))
    ensures forall key :: key in AddSections(m, SectionsOf(t, ks)) <==> key in m || (key in ks && t.fields[key].Table?)
    ensures forall key <- AddSections(m, SectionsOf(t, ks)).Keys ::
              AddSections(m, SectionsOf(t, ks))[key] == if key in ks && t.fields[key].Table? then t.fields[key] else m[key]
    decreases t, |ks|
  {
    hide LayoutOf, TreeOf, Readable, TreeOk;
    SectionsFacts(t, ks);
    if ks != [] {
      assert ks == [ks[0]] + ks[1..];
      var v := t.fields[ks[0]];
      if v.Table? {
        TreeField(t, ks[0]);
        LayoutTree(v);
        SectionsTree(t, ks[1..], m[ks[0] := v]);
      } else {
        SectionsTree(t, ks[1..], m);
      }
    }
  }

  lemma {:induction false} PartsTree(t: Node, ks: seq<string>)
    requires t.Table? && TreeOk(t) && |ks| == |t.fields| && forall k :: k in ks <==> k in t.fields
    ensures forall i :: 0 <= i < |LinesOf(t, ks)| ==> ValueNode(LinesOf(t, ks)[i].value).Some?
    ensures SectionsReadable(SectionsOf(t, ks))
    ensures AddSections(AddSettings(map[], LinesOf(t, ks)), SectionsOf(t, ks)) == t.fields
    decreases t, |t.fields| + 1
  {
    hide TreeOk, LinesOf, SectionsOf, AddSettings, AddSections;
    LinesTree(t, ks, map[]);
    SectionsTree(t, ks, AddSettings(map[], LinesOf(t, ks)));
    var tree := AddSections(AddSettings(map[], LinesOf(t, ks)), SectionsOf(t, ks));
    assert tree.Keys == t.fields.Keys;
    assert tree == t.fields;
  }

  /** The layout of a table is a layout of that table. */
  lemma {:induction false} LayoutTree(t: Node)
    requires t.Table? && TreeOk(t)
    ensures Readable(LayoutOf(t)) && TreeOf(LayoutOf(t)) == t.fields
    decreases t, |t.fields| + 2
  {
    hide TreeOk, LinesOf, SectionsOf, AddSettings, AddSections, SectionsReadable, ValueNode;
    PartsTree(t, Listed(t.fields.Keys));
  }

  // ---------------------------------------------------------------- the headers of a tree

  /** The path leads through `at` to a table under one of the keys. */
  predicate TableBelow(t: Node, ks: seq<string>, at: seq<string>, q: seq<string>)
    requires t.Table?
  {
    |q| > |at| && q[..|at|] == at && q[|at|] in ks && TableAt(t.fields, q[|at|..])
  }

  lemma {:induction false} PathsOf(t: Node, ks: seq<string>, at: seq<string>)
    requires t.Table? && TreeOk(t) && |ks| <= |t.fields| && forall k <- ks :: k in t.fields
    ensures forall q :: q in SectionPaths(SectionsOf(t, ks), at) <==> TableBelow(t, ks, at, q)
    decreases t, |ks|
  {
    hide TreeOk, LayoutOf, TableBelow;
    if ks == [] {
      forall q ensures !TableBelow(t, ks, at, q) {
        NoneBelow(t, at, q);
      }
    } else {
      PathsOf(t, ks[1..], at);
      var v := t.fields[ks[0]];
      if v.Table? {
        TreeField(t, ks[0]);
        InnerPaths(v, at + [ks[0]]);
      }
      forall q ensures TableBelow(t, ks, at, q) <==>
                       || TableBelow(t, ks[1..], at, q)
                       || (v.Table? && (q == at + [ks[0]] || TableBelow(v, Listed(v.fields.Keys), at + [ks[0]], q)))
      {
        OneKeyBelow(t, ks, at, q);
      }
    }
  }

  lemma NoneBelow(t: Node, at: seq<string>, q: seq<string>)
    requires t.Table?
    ensures !TableBelow(t, [], at, q)
  {
  }

  lemma {:induction false} InnerPaths(v: Node, at: seq<string>)
    requires v.Table? && TreeOk(v)
    ensures forall q :: q in Paths(LayoutOf(v), at) <==> TableBelow(v, Listed(v.fields.Keys), at, q)
    decreases v, |v.fields| + 1
  {
    hide TreeOk, TableBelow;
    PathsOf(v, Listed(v.fields.Keys), at);
  }

  lemma BelowIsAt(at: seq<string>, k: string, q: seq<string>)
    ensures |q| > |at| && q[..|at| + 1] == at + [k] ==> q[..|at|] == at && q[|at|] == k
  {
    if |q| > |at| && q[..|at| + 1] == at + [k] {
      assert q[..|at|] == (at + [k])[..|at|] == at;
      assert q[|at|] == (at + [k])[|at|];
    }
  }

  lemma OneKeyBelow(t: Node, ks: seq<string>, at: seq<string>, q: seq<string>)
    requires t.Table? && ks != [] && ks[0] in t.fields
    ensures var v := t.fields[ks[0]];
            TableBelow(t, ks, at, q) <==>
            || TableBelow(t, ks[1..], at, q)
            || (v.Table? && (q == at + [ks[0]] || TableBelow(v, Listed(v.fields.Keys), at + [ks[0]], q)))
  {
    var v, k := t.fields[ks[0]], ks[0];
    assert ks == [k] + ks[1..];
    if |q| > |at| && q[..|at|] == at && q[|at|] == k {
      var r := q[|at|..];
      assert q == at + r && r[0] == k;
      if |r| == 1 {
        assert q == at + [k];
      } else {
        var below := at + [k];
        assert q[..|below|] == below && q[|below|] == r[1] && q[|below|..] == r[1..] && q != below;
        assert TableAt(t.fields, r) <==> v.Table? && TableAt(v.fields, r[1..]);
        assert v.Table? && TableAt(v.fields, r[1..]) ==> r[1] in v.fields;
      }
    } else {
      assert q != at + [k];
      BelowIsAt(at, k, q);
    }
  }

  lemma NoneDistinct<T>()
    ensures Distinct<T>([])
  {
  }

  lemma JoinDistinct<T>(x: T, a: seq<T>, b: seq<T>)
    requires Distinct(a) && Distinct(b) && x !in b && forall i :: 0 <= i < |a| ==> a[i] != x && a[i] !in b
    ensures Distinct([x] + a + b)
  {
    var t := [x] + a + b;
    forall i, j | 0 <= i < j < |t| ensures t[i] != t[j] {
      if j > |a| {
        assert t[j] in b;
      }
    }
  }

  lemma {:induction false} PathsDistinct(t: Node, ks: seq<string>, at: seq<string>)
    requires t.Table? && TreeOk(t) && |ks| <= |t.fields| && forall k <- ks :: k in t.fields
    requires forall i, j :: 0 <= i < j < |ks| ==> ks[i] != ks[j]
    ensures Distinct(SectionPaths(SectionsOf(t, ks), at))
    decreases t, |ks|
  {
    hide TreeOk, LayoutOf, TableAt, Distinct;
    if ks == [] {
      NoneDistinct<seq<string>>();
    } else {
      PathsDistinct(t, ks[1..], at);
      var v := t.fields[ks[0]];
      if v.Table? {
        TreeField(t, ks[0]);
        var here := at + [ks[0]];
        InnerDistinct(v, here);
        InnerPaths(v, here);
        PathsOf(t, ks[1..], at);
        var inner, rest := Paths(LayoutOf(v), here), SectionPaths(SectionsOf(t, ks[1..]), at);
        forall i | 0 <= i < |inner| ensures inner[i] != here && inner[i] !in rest {
          assert inner[i] in inner;
          BelowIsAt(at, ks[0], inner[i]);
        }
        assert here !in rest;
        assert SectionPaths(SectionsOf(t, ks), at) == [here] + inner + rest;
        JoinDistinct(here, inner, rest);
      }
    }
  }

  lemma {:induction false} InnerDistinct(v: Node, at: seq<string>)
    requires v.Table? && TreeOk(v)
    ensures Distinct(Paths(LayoutOf(v), at))
    decreases v, |v.fields| + 1
  {
    hide TreeOk, Distinct;
    PathsDistinct(v, Listed(v.fields.Keys), at);
  }

  // ---------------------------------------------------------------- the whole tree

  /** No two tables of the tree have paths that fall into the same pieces at NUL. */
  ghost predicate TablesApart(t: Node)
    requires t.Table?
  {
    forall p, q :: p != [] && q != [] && p != q && TableAt(t.fields, p) && TableAt(t.fields, q) ==> Pieces(p) != Pieces(q)
  }

  lemma ApartIff(t: Node)
    requires t.Table? && TreeOk(t)
    ensures ToldApart(Paths(LayoutOf(t), [])) <==> TablesApart(t)
  {
    hide TreeOk, LayoutOf, TableAt, Pieces;
    var paths := Paths(LayoutOf(t), []);
    InnerDistinct(t, []);
    forall q ensures q in paths <==> q != [] && TableAt(t.fields, q) {
      InnerPaths(t, []);
      TableIsBelow(t, q);
    }
    if ToldApart(paths) {
      forall p, q | p != [] && q != [] && p != q && TableAt(t.fields, p) && TableAt(t.fields, q)
        ensures Pieces(p) != Pieces(q) {
        var i :| 0 <= i < |paths| && paths[i] == p;
        var j :| 0 <= j < |paths| && paths[j] == q;
        assert i < j || j < i;
      }
    }
    if TablesApart(t) {
      forall i, j | 0 <= i < j < |paths| ensures Pieces(paths[i]) != Pieces(paths[j]) {
        assert paths[i] in paths && paths[j] in paths;
      }
    }
  }

  lemma TableIsBelow(t: Node, q: seq<string>)
    requires t.Table?
    ensures TableBelow(t, Listed(t.fields.Keys), [], q) <==> q != [] && TableAt(t.fields, q)
  {
    if q != [] {
      assert q[..0] == [] && q[0..] == q;
    }
  }

  /** The text of a tree. */
  ghost function PrintTree(t: Node): string
    requires t.Table? && TreeOk(t)
  {
    LayoutFacts(t);
    LayoutOk(LayoutOf(t), []);
    Print(ItemsOf(LayoutOf(t), []))
  }

  /** Parsing the text of a tree gives the tree back exactly when its tables are told apart at NUL, and is
      refused otherwise. */
  lemma PrintTreeParses(t: Node)
    requires t.Table? && TreeOk(t)
    ensures Parse(PrintTree(t)) == Ok(t.fields) <==> TablesApart(t)
    ensures Parse(PrintTree(t)).Err? <==> !TablesApart(t)
  {
    hide Parse, Print, LayoutOf, ItemsOf, TreeOk, ToldApart, TablesApart, TreeOf, Paths, Writable, Readable, KeysApart;
    LayoutFacts(t);
    LayoutTree(t);
    LayoutRoundTrip(LayoutOf(t));
    ApartIff(t);
  }

  /** No key of a table contains NUL. */
  ghost predicate KeysNulFree(t: Node) {
    t.Table? ==> forall k <- t.fields.Keys :: '\0' !in k && KeysNulFree(t.fields[k])
  }

  lemma {:induction false} PathNulFree(t: Node, p: seq<string>)
    requires t.Table? && KeysNulFree(t) && p != [] && TableAt(t.fields, p)
    ensures NulFree(p)
    decreases |p|
  {
    if |p| > 1 {
      PathNulFree(t.fields[p[0]], p[1..]);
      assert forall i :: 0 < i < |p| ==> p[i] == p[1..][i - 1];
    }
  }

  /** Every tree whose keys do not contain NUL is parsed back unchanged. */
  lemma TreeRoundTrip(t: Node)
    requires t.Table? && TreeOk(t) && KeysNulFree(t)
    ensures Parse(PrintTree(t)) == Ok(t.fields)
  {
    hide Parse, PrintTree, TreeOk, TableAt, KeysNulFree, Pieces, NulFree;
    forall p, q | p != [] && q != [] && p != q && TableAt(t.fields, p) && TableAt(t.fields, q)
      ensures Pieces(p) != Pieces(q) {
      PathNulFree(t, p);
      PathNulFree(t, q);
      NulFreePieces(p);
      NulFreePieces(q);
    }
    PrintTreeParses(t);
  }

  // ---------------------------------------------------------------- what the parser returns

  lemma IntInRange(token: string)
    ensures ParseInt(token).Some? ==> -INT64_LIMIT <= ParseInt(token).value < INT64_LIMIT
  {
  }

  lemma TokenOk(s: string)
    ensures ParseToken(s).Some? ==> IsScalar(ParseToken(s).value)
  {
    IntInRange(s[..BlankAt(s)]);
  }

  lemma {:induction false} ParsedValueOk(s: string)
    ensures ParseValue(s).Some? ==> TreeOk(ParseValue(s).value)
    decreases |s|, |s| + 3
  {
    hide ScanBasic, ScanLiteral, Find, Trim, Split;
    if s != "" {
      if s[0] == '[' {
        var end := Find(s, ']', Outside);
        if end >= 0 {
          ParsedItemsOk(Split(s[1..end]), |s|);
        }
      } else if s[0] == '{' {
        ParsedInlineOk(s);
      } else if s[0] != '"' && s[0] != '\'' {
        TokenOk(s);
      }
    }
  }

  lemma {:induction false} ParsedInlineOk(s: string)
    requires s != "" && s[0] == '{'
    ensures ParseInline(s).Some? ==> TreeOk(ParseInline(s).value)
    decreases |s|, |s| + 2
  {
    hide Find, Trim, Split, EndOfLine;
    var end := Find(s, '}', Outside);
    if end >= 0 {
      var body := Trim(s[1..end]);
      if body != "" {
        ParsedFieldsOk(Split(body), |s|, map[]);
      }
    }
  }

  lemma {:induction false} ParsedItemsOk(parts: seq<string>, bound: nat)
    requires |parts| <= bound && forall p <- parts :: |p| < bound
    ensures ParseItems(parts, bound).Some? ==>
              forall i :: 0 <= i < |ParseItems(parts, bound).value| ==> IsScalar(ParseItems(parts, bound).value[i])
    decreases bound, |parts|
  {
    hide Trim, ParseValue;
    if parts != [] && Trim(parts[0]) != "" {
      ParsedValueOk(Trim(parts[0]));
      ParsedItemsOk(parts[1..], bound);
    }
  }

  lemma {:induction false} ParsedFieldsOk(parts: seq<string>, bound: nat, sofar: map<string, Node>)
    requires |parts| <= bound && (forall p <- parts :: |p| < bound) && forall k <- sofar.Keys :: TreeOk(sofar[k])
    ensures ParseFields(parts, bound, sofar).Some? ==> TreeOk(Table(ParseFields(parts, bound, sofar).value))
    decreases bound, |parts|
  {
    hide Trim, ParseValue, SingleKey, Find;
    if parts != [] {
      var part := Trim(parts[0]);
      var eq := Find(part, '=', Outside);
      if eq >= 0 {
        var key, v := SingleKey(Trim(part[..eq])), ParseValue(Trim(part[eq + 1..]));
        ParsedValueOk(Trim(part[eq + 1..]));
        if key.Some? && v.Some? && !v.value.Table? && key.value !in sofar {
          ParsedFieldsOk(parts[1..], bound, sofar[key.value := v.value]);
        }
      }
    }
  }

  ghost predicate ContentOk(c: Option<Content>) {
    c.Some? && c.value.Assign? ==> TreeOk(c.value.value)
  }

  lemma ReadOk(raw: string)
    ensures ContentOk(ReadLine(raw))
  {
    hide Trim, ParseValue, SingleKey, Find, EndOfLine, KeyPath, TreeOk;
    var line := Trim(raw);
    if line != "" && line[0] != '#' && line[0] != '[' {
      var eq := Find(line, '=', Outside);
      if eq >= 0 {
        ParsedValueOk(Trim(line[eq + 1..]));
      }
    }
  }

  lemma {:induction false} EnsureTreeOk(root: map<string, Node>, path: seq<string>)
    requires TreeOk(Table(root)) && EnsureTable(root, path).Some?
    ensures TreeOk(Table(EnsureTable(root, path).value))
    decreases |path|
  {
    if path != [] {
      EnsureTreeOk(if path[0] in root then root[path[0]].fields else map[], path[1..]);
    }
  }

  lemma {:induction false} AddTreeOk(root: map<string, Node>, path: seq<string>, key: string, v: Node)
    requires TreeOk(Table(root)) && TreeOk(v) && AddEntry(root, path, key, v).Some?
    ensures TreeOk(Table(AddEntry(root, path, key, v).value))
    decreases |path|
  {
    if path != [] {
      AddTreeOk(root[path[0]].fields, path[1..], key, v);
    }
  }

  lemma {:induction false} BuildTreeOk(cs: seq<Option<Content>>, st: State, lineNo: nat)
    requires TreeOk(Table(st.root)) && forall i :: 0 <= i < |cs| ==> ContentOk(cs[i])
    ensures Build(cs, st, lineNo).Ok? ==> TreeOk(Table(Build(cs, st, lineNo).value.root))
    decreases |cs|
  {
    hide TreeOk, EnsureTable, AddEntry;
    if cs != [] && cs[0].Some? {
      var next := Step(st, cs[0].value);
      if next.Some? {
        assert ContentOk(cs[0]);
        match cs[0].value {
          case Nothing =>
          case Header(path) => EnsureTreeOk(st.root, path);
          case Assign(key, v) => AddTreeOk(st.root, st.current, key, v);
        }
        BuildTreeOk(cs[1..], next.value, lineNo + 1);
      }
    }
  }

  /** Whatever text is parsed, its tree can be written: so the trees of the round trip are all there are. */
  lemma ParsedTreeOk(text: string)
    ensures Parse(text).Ok? ==> TreeOk(Table(Parse(text).value))
  {
    hide TreeOk, ReadLine, Build, Lines, DropReturns, WithoutMark;
    var ls := Lines(DropReturns(WithoutMark(text)));
    forall i | 0 <= i < |ls| ensures ContentOk(ReadAll(ls)[i]) {
      ReadOk(ls[i]);
    }
    EmptyTreeOk();
    BuildTreeOk(ReadAll(ls), START, 1);
  }

  lemma EmptyTreeOk()
    ensures TreeOk(Table(START.root))
  {
  }
}
