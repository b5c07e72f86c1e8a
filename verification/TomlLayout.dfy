/** Writing a tree in the TOML subset: settings of a table first, then a section for each table in it; and
    the proof that parsing the text gives the tree back (backend/pkg/mcp/toml_subset.go). */
module TomlLayout {
  import opened Wrappers
  import opened Toml
  import opened TomlRoundTrip
  import opened TomlDepartures

  datatype Line = Line(key: Text, value: Value)

  /** A table as it is written: its settings in order, then its sections. */
  datatype Layout = Layout(settings: seq<Line>, sections: Sections)

  datatype Sections = NoMore | Sub(name: Text, inner: Layout, rest: Sections)

  // ---------------------------------------------------------------- what a layout is of

  function AddSettings(m: map<string, Node>, ss: seq<Line>): map<string, Node>
    requires forall i :: 0 <= i < |ss| ==> ValueNode(ss[i].value).Some?
    decreases |ss|
  {
    if ss == [] then m else AddSettings(m[ss[0].key.text := ValueNode(ss[0].value).value], ss[1..])
  }

  function AddSections(m: map<string, Node>, s: Sections): map<string, Node>
    requires SectionsReadable(s)
    decreases s
  {
    match s
    case NoMore => m
    case Sub(name, inner, rest) => AddSections(m[name.text := Table(TreeOf(inner))], rest)
  }

  /** The tree a layout is a way of writing. */
  function TreeOf(l: Layout): map<string, Node>
    requires Readable(l)
    decreases l
  {
    AddSections(AddSettings(map[], l.settings), l.sections)
  }

  /** No inline table repeats a key. */
  predicate Readable(l: Layout) {
    (forall i :: 0 <= i < |l.settings| ==> ValueNode(l.settings[i].value).Some?) && SectionsReadable(l.sections)
  }

  predicate SectionsReadable(s: Sections) {
    match s
    case NoMore => true
    case Sub(_, inner, rest) => Readable(inner) && SectionsReadable(rest)
  }

  predicate NamedIn(s: Sections, key: string) {
    match s
    case NoMore => false
    case Sub(name, _, rest) => name.text == key || NamedIn(rest, key)
  }

  /** No key twice in one table. */
  predicate KeysApart(l: Layout) {
    && (forall i, j :: 0 <= i < j < |l.settings| ==> l.settings[i].key.text != l.settings[j].key.text)
    && (forall i :: 0 <= i < |l.settings| ==> !NamedIn(l.sections, l.settings[i].key.text))
    && SectionsApart(l.sections)
  }

  predicate SectionsApart(s: Sections) {
    match s
    case NoMore => true
    case Sub(name, inner, rest) => KeysApart(inner) && !NamedIn(rest, name.text) && SectionsApart(rest)
  }

  predicate Writable(l: Layout) {
    && (forall i :: 0 <= i < |l.settings| ==> TextOk(l.settings[i].key) && ValueOk(l.settings[i].value))
    && SectionsWritable(l.sections)
  }

  predicate SectionsWritable(s: Sections) {
    match s
    case NoMore => true
    case Sub(name, inner, rest) => TextOk(name) && Writable(inner) && SectionsWritable(rest)
  }

  // ---------------------------------------------------------------- the lines of a layout

  function SettingItems(ss: seq<Line>): seq<Item> {
    if ss == [] then [] else [Setting(ss[0].key, ss[0].value)] + SettingItems(ss[1..])
  }

  /** The lines of the table at a path, after its header. */
  function ItemsOf(l: Layout, at: seq<Text>): seq<Item> {
    SettingItems(l.settings) + SectionItems(l.sections, at)
  }

  function SectionItems(s: Sections, at: seq<Text>): seq<Item> {
    match s
    case NoMore => []
    case Sub(name, inner, rest) =>
      [Section(at + [name])] + ItemsOf(inner, at + [name]) + SectionItems(rest, at)
  }

  /** The paths of the headers, in order. */
  function Paths(l: Layout, at: seq<string>): seq<seq<string>> {
    SectionPaths(l.sections, at)
  }

  function SectionPaths(s: Sections, at: seq<string>): seq<seq<string>> {
    match s
    case NoMore => []
    case Sub(name, inner, rest) => [at + [name.text]] + Paths(inner, at + [name.text]) + SectionPaths(rest, at)
  }

  /** The identities of the headers, in order. */
  function Ids(l: Layout, at: seq<string>): seq<string> {
    SectionIds(l.sections, at)
  }

  function SectionIds(s: Sections, at: seq<string>): seq<string> {
    match s
    case NoMore => []
    case Sub(name, inner, rest) =>
      [HeaderId(at + [name.text])] + Ids(inner, at + [name.text]) + SectionIds(rest, at)
  }

  /** Some identity occurs twice, or was declared before. */
  predicate Clash(ids: seq<string>, declared: set<string>) {
    ids != [] && (ids[0] in declared || Clash(ids[1..], declared + {ids[0]}))
  }

  lemma {:induction false} ClashConcat(a: seq<string>, b: seq<string>, declared: set<string>)
    ensures Clash(a + b, declared) <==> Clash(a, declared) || Clash(b, declared + Elements(a))
    decreases |a|
  {
    if a == [] {
      assert a + b == b && declared + Elements(a) == declared;
    } else {
      assert (a + b)[1..] == a[1..] + b;
      ClashConcat(a[1..], b, declared + {a[0]});
      assert declared + {a[0]} + Elements(a[1..]) == declared + Elements(a);
    }
  }

  function Elements(a: seq<string>): set<string> {
    set x | x in a
  }

  // ---------------------------------------------------------------- tables inside a tree

  /** The table at a path. */
  function TableOf(root: map<string, Node>, path: seq<string>): Option<map<string, Node>>
    decreases |path|
  {
    if path == [] then Some(root)
    else if path[0] in root && root[path[0]].Table? then TableOf(root[path[0]].fields, path[1..])
    else None
  }

  /** The tree with another table at the path. */
  function Replace(root: map<string, Node>, path: seq<string>, m: map<string, Node>): map<string, Node>
    requires TableOf(root, path).Some?
    decreases |path|
  {
    if path == [] then m else root[path[0] := Table(Replace(root[path[0]].fields, path[1..], m))]
  }

  lemma {:induction false} ReplaceFacts(root: map<string, Node>, path: seq<string>, m: map<string, Node>,
                                        n: map<string, Node>)
    requires TableOf(root, path).Some?
    ensures TableOf(Replace(root, path, m), path) == Some(m)
    ensures Replace(Replace(root, path, m), path, n) == Replace(root, path, n)
    ensures Replace(root, path, TableOf(root, path).value) == root
    decreases |path|
  {
    if path != [] {
      ReplaceFacts(root[path[0]].fields, path[1..], m, n);
    }
  }

  lemma {:induction false} AddAt(root: map<string, Node>, path: seq<string>, key: string, v: Node)
    requires TableOf(root, path).Some? && key !in TableOf(root, path).value
    ensures AddEntry(root, path, key, v) == Some(Replace(root, path, TableOf(root, path).value[key := v]))
    decreases |path|
  {
    if path != [] {
      AddAt(root[path[0]].fields, path[1..], key, v);
    }
  }

  lemma {:induction false} EnsureAt(root: map<string, Node>, path: seq<string>, key: string)
    requires TableOf(root, path).Some? && key !in TableOf(root, path).value
    ensures EnsureTable(root, path + [key]) == Some(Replace(root, path, TableOf(root, path).value[key := Table(map[])]))
    decreases |path|
  {
    assert (path + [key])[0] == if path == [] then key else path[0];
    if path != [] {
      assert (path + [key])[1..] == path[1..] + [key];
      EnsureAt(root[path[0]].fields, path[1..], key);
    } else {
      assert (path + [key])[1..] == [];
    }
  }

  /** Replacing the table under a key is replacing the table around it. */
  lemma {:induction false} ReplaceInside(root: map<string, Node>, path: seq<string>, key: string, n: map<string, Node>)
    requires TableOf(root, path).Some?
    requires var m := TableOf(root, path).value; key in m && m[key].Table?
    ensures TableOf(root, path + [key]) == Some(TableOf(root, path).value[key].fields)
    ensures Replace(root, path + [key], n) == Replace(root, path, TableOf(root, path).value[key := Table(n)])
    decreases |path|
  {
    if path != [] {
      assert (path + [key])[1..] == path[1..] + [key];
      ReplaceInside(root[path[0]].fields, path[1..], key, n);
    } else {
      assert (path + [key])[1..] == [];
    }
  }

  // ---------------------------------------------------------------- building a layout

  lemma {:induction false} BuildConcat(a: seq<Option<Content>>, b: seq<Option<Content>>, st: State, lineNo: nat)
    ensures var r := Build(a, st, lineNo);
            Build(a + b, st, lineNo) == if r.Err? then r else Build(b, r.value, lineNo + |a|)
    decreases |a|
  {
    hide Step;
    if a == [] {
      assert a + b == b;
    } else {
      assert (a + b)[1..] == a[1..] + b && (a + b)[0] == a[0];
      if a[0].Some? && Step(st, a[0].value).Some? {
        BuildConcat(a[1..], b, Step(st, a[0].value).value, lineNo + 1);
      }
    }
  }

  lemma {:induction false} MeaningsConcat(a: seq<Item>, b: seq<Item>)
    ensures Meanings(a + b) == Meanings(a) + Meanings(b)
    decreases |a|
  {
    hide Meaning;
    if a == [] {
      assert a + b == b;
    } else {
      assert (a + b)[1..] == a[1..] + b;
      MeaningsConcat(a[1..], b);
    }
  }

  lemma {:induction false} SegmentsSnoc(at: seq<Text>, name: Text)
    ensures Segments(at + [name]) == Segments(at) + [name.text]
    decreases |at|
  {
    if at == [] {
      assert at + [name] == [name] && [name][1..] == [];
    } else {
      assert (at + [name])[1..] == at[1..] + [name];
      SegmentsSnoc(at[1..], name);
    }
  }

  lemma {:induction false} SettingKeys(m: map<string, Node>, ss: seq<Line>, key: string)
    requires forall i :: 0 <= i < |ss| ==> ValueNode(ss[i].value).Some?
    ensures key in AddSettings(m, ss) <==> key in m || exists i :: 0 <= i < |ss| && ss[i].key.text == key
    decreases |ss|
  {
    if ss != [] {
      SettingKeys(m[ss[0].key.text := ValueNode(ss[0].value).value], ss[1..], key);
      if i :| 0 <= i < |ss| && ss[i].key.text == key {
        assert i == 0 || ss[1..][i - 1].key.text == key;
      }
    }
  }

  lemma SettingMeaning(line: Line)
    requires ValueNode(line.value).Some?
    ensures Meaning(Setting(line.key, line.value)) == Some(Assign(line.key.text, ValueNode(line.value).value))
  {
  }

  lemma MeaningsCons(i: Item, items: seq<Item>)
    ensures Meanings([i] + items) == [Meaning(i)] + Meanings(items)
  {
    hide Meaning;
    assert ([i] + items)[1..] == items;
  }

  lemma AssignStep(st: State, key: string, v: Node)
    requires TableOf(st.root, st.current).Some? && key !in TableOf(st.root, st.current).value
    ensures Step(st, Assign(key, v)) ==
            Some(st.(root := Replace(st.root, st.current, TableOf(st.root, st.current).value[key := v])))
  {
    AddAt(st.root, st.current, key, v);
  }

  lemma {:induction false} SettingsBuild(ss: seq<Line>, m: map<string, Node>, st: State, lineNo: nat)
    requires forall i :: 0 <= i < |ss| ==> ValueNode(ss[i].value).Some? && ss[i].key.text !in m
    requires forall i, j :: 0 <= i < j < |ss| ==> ss[i].key.text != ss[j].key.text
    requires TableOf(st.root, st.current) == Some(m)
    ensures Build(Meanings(SettingItems(ss)), st, lineNo) == Ok(st.(root := Replace(st.root, st.current, AddSettings(m, ss))))
    decreases |ss|
  {
    hide TableOf, Replace, ValueNode, Step, Meaning;
    if ss == [] {
      ReplaceFacts(st.root, st.current, m, m);
    } else {
      var key, v := ss[0].key.text, ValueNode(ss[0].value).value;
      var m2 := m[key := v];
      SettingMeaning(ss[0]);
      MeaningsCons(Setting(ss[0].key, ss[0].value), SettingItems(ss[1..]));
      AssignStep(st, key, v);
      ReplaceFacts(st.root, st.current, m2, AddSettings(m, ss));
      SettingsBuild(ss[1..], m2, st.(root := Replace(st.root, st.current, m2)), lineNo + 1);
    }
  }

  lemma HeaderStep(st: State, at: seq<string>, name: string)
    requires TableOf(st.root, at).Some? && name !in TableOf(st.root, at).value
    ensures var id := HeaderId(at + [name]);
            Step(st, Header(at + [name])) ==
            if id in st.declared then None
            else Some(State(Replace(st.root, at, TableOf(st.root, at).value[name := Table(map[])]), at + [name], st.declared + {id}))
  {
    EnsureAt(st.root, at, name);
  }

  /** The header of a section, then its lines, then the sections after it. */
  lemma SubMeanings(s: Sections, at: seq<Text>)
    requires s.Sub?
    ensures Meanings(SectionItems(s, at)) ==
            [Some(Header(Segments(at) + [s.name.text]))] +
            (Meanings(ItemsOf(s.inner, at + [s.name])) + Meanings(SectionItems(s.rest, at)))
  {
    var head, body, rest := [Section(at + [s.name])], ItemsOf(s.inner, at + [s.name]), SectionItems(s.rest, at);
    JoinThree(head, body, rest);
    hide ItemsOf, Meanings, Meaning;
    MeaningsConcat(head, body + rest);
    MeaningsConcat(body, rest);
    HeaderMeaning(at, s.name);
  }

  lemma JoinThree<T>(a: seq<T>, b: seq<T>, c: seq<T>)
    ensures a + b + c == a + (b + c)
  {
  }

  lemma HeaderMeaning(at: seq<Text>, name: Text)
    ensures Meanings([Section(at + [name])]) == [Some(Header(Segments(at) + [name.text]))]
  {
    SegmentsSnoc(at, name);
    assert [Section(at + [name])][1..] == [];
  }

  lemma HeadFirst(c: Content, rest: seq<Option<Content>>, st: State, lineNo: nat)
    ensures Build([Some(c)] + rest, st, lineNo) ==
            if Step(st, c).None? then Err(lineNo) else Build(rest, Step(st, c).value, lineNo + 1)
  {
    hide Step;
    assert ([Some(c)] + rest)[1..] == rest;
  }

  /** What building some sections at a path comes to. */
  ghost predicate Built(r: Result<State, nat>, ids: seq<string>, st: State, at: seq<string>, tree: map<string, Node>) {
    if Clash(ids, st.declared) then r.Err?
    else
      && r.Ok? && TableOf(st.root, at).Some?
      && r.value.root == Replace(st.root, at, tree) && r.value.declared == st.declared + Elements(ids)
  }

  lemma {:induction false} SectionsBuild(s: Sections, at: seq<Text>, m: map<string, Node>, st: State, lineNo: nat)
    requires SectionsReadable(s) && SectionsApart(s) && forall key <- m.Keys :: !NamedIn(s, key)
    requires TableOf(st.root, Segments(at)) == Some(m)
    ensures Built(Build(Meanings(SectionItems(s, at)), st, lineNo), SectionIds(s, Segments(at)), st, Segments(at), AddSections(m, s))
    decreases s
  {
    hide TableOf, Replace, Build, Step, Clash, TreeOf, ItemsOf;
    var path := Segments(at);
    match s
    case NoMore =>
      ReplaceFacts(st.root, path, m, m);
      NoneBuilt(st, lineNo);
    case Sub(name, inner, rest) =>
      var here := path + [name.text];
      SubMeanings(s, at);
      SegmentsSnoc(at, name);
      var body, more := Meanings(ItemsOf(inner, at + [name])), Meanings(SectionItems(rest, at));
      HeadFirst(Header(here), body + more, st, lineNo);
      HeaderStep(st, path, name.text);
      if HeaderId(here) !in st.declared {
        var m1 := m[name.text := Table(map[])];
        var m2 := m[name.text := Table(TreeOf(inner))];
        var st1 := State(Replace(st.root, path, m1), here, st.declared + {HeaderId(here)});
        EnterSection(st.root, path, m, name.text, TreeOf(inner));
        LayoutBuild(inner, at + [name], st1, lineNo + 1);
        BuildConcat(body, more, st1, lineNo + 1);
        var r := Build(body, st1, lineNo + 1);
        if r.Ok? {
          assert r.value.root == Replace(st.root, path, m2);
          ReplaceFacts(st.root, path, m2, AddSections(m2, rest));
          SectionsBuild(rest, at, m2, r.value, lineNo + 1 + |body|);
        }
      }
      ClashSub(HeaderId(here), Ids(inner, here), SectionIds(rest, path), st.declared);
  }

  /** A new table under a key, and then another in its place. */
  lemma EnterSection(root: map<string, Node>, at: seq<string>, m: map<string, Node>, key: string, n: map<string, Node>)
    requires TableOf(root, at) == Some(m)
    ensures var r1 := Replace(root, at, m[key := Table(map[])]);
            TableOf(r1, at + [key]) == Some(map[]) && Replace(r1, at + [key], n) == Replace(root, at, m[key := Table(n)])
  {
    hide TableOf, Replace;
    var m1 := m[key := Table(map[])];
    ReplaceFacts(root, at, m1, m[key := Table(n)]);
    ReplaceInside(Replace(root, at, m1), at, key, n);
    assert m1[key := Table(n)] == m[key := Table(n)];
  }

  lemma NoneBuilt(st: State, lineNo: nat)
    ensures Build([], st, lineNo) == Ok(st) && !Clash([], st.declared) && st.declared + Elements([]) == st.declared
  {
  }

  lemma ClashSub(id: string, inner: seq<string>, rest: seq<string>, declared: set<string>)
    ensures Clash([id] + inner + rest, declared) <==>
            || id in declared
            || Clash(inner, declared + {id})
            || Clash(rest, declared + {id} + Elements(inner))
    ensures Elements([id] + inner + rest) == {id} + Elements(inner) + Elements(rest)
  {
    assert [id] + inner + rest == [id] + (inner + rest);
    assert ([id] + (inner + rest))[1..] == inner + rest;
    ClashConcat(inner, rest, declared + {id});
  }

  lemma {:induction false} LayoutBuild(l: Layout, at: seq<Text>, st: State, lineNo: nat)
    requires Readable(l) && KeysApart(l)
    requires st.current == Segments(at) && TableOf(st.root, Segments(at)) == Some(map[])
    ensures Built(Build(Meanings(ItemsOf(l, at)), st, lineNo), Ids(l, Segments(at)), st, Segments(at), TreeOf(l))
    decreases l
  {
    hide TableOf, Replace, Build, Step, Clash, ValueNode, SectionItems, SettingItems;
    var path := Segments(at);
    var m := AddSettings(map[], l.settings);
    var first, more := Meanings(SettingItems(l.settings)), Meanings(SectionItems(l.sections, at));
    MeaningsConcat(SettingItems(l.settings), SectionItems(l.sections, at));
    SettingsBuild(l.settings, map[], st, lineNo);
    BuildConcat(first, more, st, lineNo);
    var st1 := st.(root := Replace(st.root, path, m));
    ReplaceFacts(st.root, path, m, TreeOf(l));
    forall key <- m.Keys ensures !NamedIn(l.sections, key) {
      SettingKeys(map[], l.settings, key);
    }
    SectionsBuild(l.sections, at, m, st1, lineNo + |first|);
  }

  // ---------------------------------------------------------------- parsing a printed layout

  lemma {:induction false} SettingsOk(ss: seq<Line>)
    requires forall i :: 0 <= i < |ss| ==> TextOk(ss[i].key) && ValueOk(ss[i].value)
    ensures forall i :: 0 <= i < |SettingItems(ss)| ==> ItemOk(SettingItems(ss)[i])
    decreases |ss|
  {
    if ss != [] {
      SettingsOk(ss[1..]);
    }
  }

  lemma {:induction false} SectionsOk(s: Sections, at: seq<Text>)
    requires SectionsWritable(s) && forall i :: 0 <= i < |at| ==> TextOk(at[i])
    ensures forall i :: 0 <= i < |SectionItems(s, at)| ==> ItemOk(SectionItems(s, at)[i])
    decreases s
  {
    hide TextOk;
    if s.Sub? {
      LayoutOk(s.inner, at + [s.name]);
      SectionsOk(s.rest, at);
      hide ItemOk, ItemsOf;
      assert ItemOk(Section(at + [s.name])) by {
        SectionOk(at + [s.name]);
      }
    }
  }

  lemma SectionOk(path: seq<Text>)
    requires path != [] && forall i :: 0 <= i < |path| ==> TextOk(path[i])
    ensures ItemOk(Section(path))
  {
  }

  lemma {:induction false} LayoutOk(l: Layout, at: seq<Text>)
    requires Writable(l) && forall i :: 0 <= i < |at| ==> TextOk(at[i])
    ensures forall i :: 0 <= i < |ItemsOf(l, at)| ==> ItemOk(ItemsOf(l, at)[i])
    decreases l
  {
    hide TextOk, ItemOk, ValueOk;
    SettingsOk(l.settings);
    SectionsOk(l.sections, at);
  }

  /** Different sections whose paths fall into different pieces at NUL. */
  ghost predicate ToldApart(paths: seq<seq<string>>) {
    forall i, j :: 0 <= i < j < |paths| ==> Pieces(paths[i]) != Pieces(paths[j])
  }

  lemma {:induction false} IdsOfPaths(s: Sections, at: seq<string>)
    ensures |SectionIds(s, at)| == |SectionPaths(s, at)|
    ensures forall i :: 0 <= i < |SectionPaths(s, at)| ==>
              SectionPaths(s, at)[i] != [] && SectionIds(s, at)[i] == HeaderId(SectionPaths(s, at)[i])
    decreases s
  {
    hide HeaderId;
    if s.Sub? {
      IdsOfPaths(s.inner.sections, at + [s.name.text]);
      IdsOfPaths(s.rest, at);
    }
  }

  lemma {:induction false} ClashIff(ids: seq<string>, declared: set<string>)
    ensures Clash(ids, declared) <==>
            || (exists i :: 0 <= i < |ids| && ids[i] in declared)
            || (exists i, j :: 0 <= i < j < |ids| && ids[i] == ids[j])
    decreases |ids|
  {
    if ids != [] {
      ClashIff(ids[1..], declared + {ids[0]});
      var t := ids[1..];
      if i :| 0 <= i < |t| && t[i] in declared + {ids[0]} {
        assert ids[i + 1] == t[i];
      }
      if i, j :| 0 <= i < j < |t| && t[i] == t[j] {
        assert ids[i + 1] == t[i] && ids[j + 1] == t[j];
      }
      if i :| 0 <= i < |ids| && ids[i] in declared {
        assert i == 0 || t[i - 1] == ids[i];
      }
      if i, j :| 0 <= i < j < |ids| && ids[i] == ids[j] {
        assert t[j - 1] == ids[j] && (i == 0 || t[i - 1] == ids[i]);
      }
    }
  }

  lemma ToldApartIff(l: Layout)
    ensures Clash(Ids(l, []), {}) <==> !ToldApart(Paths(l, []))
  {
    hide HeaderId, Pieces;
    var ids, paths := Ids(l, []), Paths(l, []);
    ClashIff(ids, {});
    IdsOfPaths(l.sections, []);
    forall i, j | 0 <= i < j < |ids| ensures ids[i] == ids[j] <==> Pieces(paths[i]) == Pieces(paths[j]) {
      HeaderIdsIff(paths[i], paths[j]);
    }
  }

  /** A written table is parsed to the tree it was written from exactly when its sections are told apart;
      otherwise it is refused. */
  lemma LayoutRoundTrip(l: Layout)
    requires Writable(l) && Readable(l) && KeysApart(l)
    ensures forall i :: 0 <= i < |ItemsOf(l, [])| ==> ItemOk(ItemsOf(l, [])[i])
    ensures Parse(Print(ItemsOf(l, []))) == Ok(TreeOf(l)) <==> ToldApart(Paths(l, []))
    ensures Parse(Print(ItemsOf(l, []))).Err? <==> !ToldApart(Paths(l, []))
  {
    hide Parse, Print, Clash, ToldApart, Build, TreeOf, ItemsOf, Meanings, Writable, Readable, KeysApart;
    LayoutOk(l, []);
    ParsePrint(ItemsOf(l, []));
    LayoutBuild(l, [], START, 1);
    ToldApartIff(l);
  }
}
