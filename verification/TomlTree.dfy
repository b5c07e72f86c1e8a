/** Which documents are accepted and what their trees contain, said of the lines alone
    (backend/pkg/mcp/toml_subset.go). */
module TomlTree {
  import opened Wrappers
  import opened Toml
  import opened TomlRoundTrip

  /** The value at a path of keys. */
  function GetNode(root: map<string, Node>, path: seq<string>): Option<Node>
    requires path != []
    decreases |path|
  {
    if path[0] !in root then None
    else if |path| == 1 then Some(root[path[0]])
    else if root[path[0]].Table? then GetNode(root[path[0]].fields, path[1..])
    else None
  }

  predicate LeafAt(root: map<string, Node>, path: seq<string>)
    requires path != []
  {
    GetNode(root, path).Some? && !GetNode(root, path).value.Table?
  }

  predicate TableAt(root: map<string, Node>, path: seq<string>)
    requires path != []
  {
    GetNode(root, path).Some? && GetNode(root, path).value.Table?
  }

  // ---------------------------------------------------------------- what the lines say

  /** The section line `i` stands in: the last header before it. */
  function SectionAt(cs: seq<Option<Content>>, i: nat): seq<string>
    requires i <= |cs|
  {
    if i == 0 then []
    else match cs[i - 1]
      case Some(Header(path)) => path
      case _ => SectionAt(cs, i - 1)
  }

  /** An entry with value `w` at path `at` puts a node at `p`: there, or inside it when it is a table. */
  function Within(at: seq<string>, w: Node, p: seq<string>): Option<Node>
    requires at != []
  {
    if !(at <= p) then None
    else if p == at then Some(w)
    else if w.Table? then GetNode(w.fields, p[|at|..])
    else None
  }

  /** The node line `i` puts at `p`, in the section it stands in. */
  function Puts(cs: seq<Option<Content>>, i: nat, p: seq<string>): Option<Node>
    requires i < |cs|
  {
    match cs[i]
    case Some(Assign(key, w)) => Within(SectionAt(cs, i) + [key], w, p)
    case _ => None
  }

  /** Line `i` states the value `v` at `p`. */
  predicate States(cs: seq<Option<Content>>, i: nat, p: seq<string>, v: Node)
    requires i < |cs|
  {
    Puts(cs, i, p) == Some(v)
  }

  /** Line `i` makes `p` a table: a header at `p` or below it, or an inline table. */
  predicate Opens(cs: seq<Option<Content>>, i: nat, p: seq<string>)
    requires i < |cs|
  {
    match cs[i]
    case Some(Header(path)) => p <= path
    case _ => Puts(cs, i, p).Some? && Puts(cs, i, p).value.Table?
  }

  /** Line `i` puts a value that is not a table at `p`. */
  predicate Fills(cs: seq<Option<Content>>, i: nat, p: seq<string>)
    requires i < |cs|
  {
    Puts(cs, i, p).Some? && !Puts(cs, i, p).value.Table?
  }

  predicate Heads(cs: seq<Option<Content>>, i: nat, id: string)
    requires i < |cs|
  {
    match cs[i]
    case Some(Header(path)) => path != [] && HeaderId(path) == id
    case _ => false
  }

  /** One of the first `j` lines does. */
  ghost predicate Stated(cs: seq<Option<Content>>, j: nat, p: seq<string>, v: Node)
    requires j <= |cs|
  {
    exists i :: 0 <= i < j && States(cs, i, p, v)
  }

  ghost predicate Opened(cs: seq<Option<Content>>, j: nat, p: seq<string>)
    requires j <= |cs|
  {
    exists i :: 0 <= i < j && Opens(cs, i, p)
  }

  ghost predicate Filled(cs: seq<Option<Content>>, j: nat, p: seq<string>)
    requires j <= |cs|
  {
    exists i :: 0 <= i < j && Fills(cs, i, p)
  }

  ghost predicate Headed(cs: seq<Option<Content>>, j: nat, id: string)
    requires j <= |cs|
  {
    exists i :: 0 <= i < j && Heads(cs, i, id)
  }

  /** The line is readable and in conflict with none before it: no header of the same identity, no value
      where its section needs a table, nothing yet under its key. */
  ghost predicate Fine(cs: seq<Option<Content>>, j: nat)
    requires j < |cs|
  {
    match cs[j]
    case None => false
    case Some(Nothing) => true
    case Some(Header(path)) =>
      path != [] && !Headed(cs, j, HeaderId(path)) && forall k :: 0 < k <= |path| ==> !Filled(cs, j, path[..k])
    case Some(Assign(key, _)) =>
      !Filled(cs, j, SectionAt(cs, j) + [key]) && !Opened(cs, j, SectionAt(cs, j) + [key])
  }

  ghost predicate AllFine(cs: seq<Option<Content>>) {
    forall j :: 0 <= j < |cs| ==> Fine(cs, j)
  }

  /** Line number `n` is the first that is not fine. */
  ghost predicate FirstBad(cs: seq<Option<Content>>, n: nat) {
    1 <= n <= |cs| && !Fine(cs, n - 1) && forall j :: 0 <= j < n - 1 ==> Fine(cs, j)
  }

  // ---------------------------------------------------------------- one line on a tree

  lemma {:induction false} EnsureOk(root: map<string, Node>, path: seq<string>)
    ensures EnsureTable(root, path).Some? <==> forall k :: 0 < k <= |path| ==> !LeafAt(root, path[..k])
    decreases |path|
  {
    if path != [] {
      assert path[..1] == [path[0]];
      if path[0] !in root || root[path[0]].Table? {
        var below := if path[0] in root then root[path[0]].fields else map[];
        EnsureOk(below, path[1..]);
        forall k | 1 < k <= |path| ensures LeafAt(root, path[..k]) <==> LeafAt(below, path[1..][..k - 1]) {
          assert path[..k][1..] == path[1..][..k - 1];
        }
        forall k | 0 < k <= |path[1..]| ensures LeafAt(below, path[1..][..k]) <==> LeafAt(root, path[..k + 1]) {
          assert path[..k + 1][1..] == path[1..][..k];
        }
      } else {
        assert LeafAt(root, path[..1]);
      }
    }
  }

  lemma {:induction false} EnsureKeeps(root: map<string, Node>, path: seq<string>, p: seq<string>)
    requires p != [] && EnsureTable(root, path).Some?
    ensures var after := EnsureTable(root, path).value;
            && (forall v: Node :: !v.Table? ==> (GetNode(after, p) == Some(v) <==> GetNode(root, p) == Some(v)))
            && (TableAt(after, p) <==> TableAt(root, p) || p <= path)
    decreases |path|
  {
    if path != [] && p[0] == path[0] {
      var below := if path[0] in root then root[path[0]].fields else map[];
      assert p == [p[0]] + p[1..] && path == [path[0]] + path[1..];
      if |p| > 1 {
        EnsureKeeps(below, path[1..], p[1..]);
        assert p <= path <==> p[1..] <= path[1..];
      } else {
        assert p <= path;
      }
    }
  }

  /** The path is a table of the tree, or its root. */
  predicate Reachable(root: map<string, Node>, path: seq<string>) {
    path == [] || TableAt(root, path)
  }

  lemma {:induction false} AddOk(root: map<string, Node>, path: seq<string>, key: string, w: Node)
    requires Reachable(root, path)
    ensures AddEntry(root, path, key, w).Some? <==> GetNode(root, path + [key]) == None
    decreases |path|
  {
    if path != [] {
      assert (path + [key])[1..] == path[1..] + [key];
      AddOk(root[path[0]].fields, path[1..], key, w);
    }
  }

  lemma WithinTail(h: string, at: seq<string>, w: Node, p: seq<string>)
    requires at != [] && p != [] && p[0] == h
    ensures Within([h] + at, w, p) == Within(at, w, p[1..])
  {
    var whole := [h] + at;
    assert p == [h] + p[1..] && whole[1..] == at;
    assert whole <= p <==> at <= p[1..] by {
      if whole <= p {
        assert at == p[1..][..|at|];
      }
      if at <= p[1..] {
        assert whole == p[..|whole|];
      }
    }
    if |at| <= |p[1..]| {
      assert p[|whole|..] == p[1..][|at|..];
    }
  }

  /** After an entry is added a node is where it was, or where the entry puts it. */
  lemma {:induction false} AddKeeps(root: map<string, Node>, path: seq<string>, key: string, w: Node, p: seq<string>)
    requires p != [] && AddEntry(root, path, key, w).Some?
    ensures var after := AddEntry(root, path, key, w).value;
            var put := Within(path + [key], w, p);
            && (forall v: Node :: !v.Table? ==> (GetNode(after, p) == Some(v) <==> GetNode(root, p) == Some(v) || put == Some(v)))
            && (TableAt(after, p) <==> TableAt(root, p) || (put.Some? && put.value.Table?))
    decreases |path|
  {
    if path == [] {
      assert [] + [key] == [key];
    } else {
      assert path + [key] == [path[0]] + (path[1..] + [key]);
      if p[0] == path[0] {
        WithinTail(path[0], path[1..] + [key], w, p);
        if |p| > 1 {
          AddKeeps(root[path[0]].fields, path[1..], key, w, p[1..]);
        }
      }
    }
  }

  // ---------------------------------------------------------------- prefixes of a document

  lemma {:induction false} SectionPrefix(cs: seq<Option<Content>>, n: nat, i: nat)
    requires i <= n <= |cs|
    ensures SectionAt(cs[..n], i) == SectionAt(cs, i)
    decreases i
  {
    if i > 0 {
      SectionPrefix(cs, n, i - 1);
    }
  }

  lemma PrefixSays(cs: seq<Option<Content>>, n: nat, j: nat)
    requires j <= n <= |cs|
    ensures forall p, v :: Stated(cs[..n], j, p, v) <==> Stated(cs, j, p, v)
    ensures forall p :: Opened(cs[..n], j, p) <==> Opened(cs, j, p)
    ensures forall p :: Filled(cs[..n], j, p) <==> Filled(cs, j, p)
    ensures forall id :: Headed(cs[..n], j, id) <==> Headed(cs, j, id)
  {
    hide Within;
    forall i | 0 <= i < j ensures SectionAt(cs[..n], i) == SectionAt(cs, i) && cs[..n][i] == cs[i] {
      SectionPrefix(cs, n, i);
    }
    forall i, p | 0 <= i < j ensures Puts(cs[..n], i, p) == Puts(cs, i, p) {
    }
    forall p ensures Opened(cs[..n], j, p) <==> Opened(cs, j, p) {
      hide Puts;
      if i :| 0 <= i < j && Opens(cs[..n], i, p) {
        assert Opens(cs, i, p);
      }
      if i :| 0 <= i < j && Opens(cs, i, p) {
        assert Opens(cs[..n], i, p);
      }
    }
    forall p ensures Filled(cs[..n], j, p) <==> Filled(cs, j, p) {
      hide Puts;
      if i :| 0 <= i < j && Fills(cs[..n], i, p) {
        assert Fills(cs, i, p);
      }
      if i :| 0 <= i < j && Fills(cs, i, p) {
        assert Fills(cs[..n], i, p);
      }
    }
    forall p, v ensures Stated(cs[..n], j, p, v) <==> Stated(cs, j, p, v) {
      hide Puts;
      if i :| 0 <= i < j && States(cs[..n], i, p, v) {
        assert States(cs, i, p, v);
      }
      if i :| 0 <= i < j && States(cs, i, p, v) {
        assert States(cs[..n], i, p, v);
      }
    }
    forall id ensures Headed(cs[..n], j, id) <==> Headed(cs, j, id) {
      if i :| 0 <= i < j && Heads(cs[..n], i, id) {
        assert Heads(cs, i, id);
      }
      if i :| 0 <= i < j && Heads(cs, i, id) {
        assert Heads(cs[..n], i, id);
      }
    }
  }

  /** What one more line adds. */
  lemma OneMore(cs: seq<Option<Content>>, j: nat)
    requires j < |cs|
    ensures forall p, v :: Stated(cs, j + 1, p, v) <==> Stated(cs, j, p, v) || States(cs, j, p, v)
    ensures forall p :: Opened(cs, j + 1, p) <==> Opened(cs, j, p) || Opens(cs, j, p)
    ensures forall id :: Headed(cs, j + 1, id) <==> Headed(cs, j, id) || Heads(cs, j, id)
  {
    hide States, Opens, Heads;
  }

  lemma FinePrefix(cs: seq<Option<Content>>, n: nat, j: nat)
    requires j < n <= |cs|
    ensures Fine(cs[..n], j) <==> Fine(cs, j)
  {
    hide Filled, Opened, Headed;
    SectionPrefix(cs, n, j);
    PrefixSays(cs, n, j);
  }

  lemma {:induction false} BuildSnoc(cs: seq<Option<Content>>, c: Option<Content>, st: State, lineNo: nat)
    ensures var before := Build(cs, st, lineNo);
            Build(cs + [c], st, lineNo) ==
            if before.Err? then before
            else if c.None? || Step(before.value, c.value).None? then Err(lineNo + |cs|)
            else Ok(Step(before.value, c.value).value)
    decreases |cs|
  {
    hide Step;
    if cs == [] {
      assert cs + [c] == [c] && [c][1..] == [];
    } else {
      assert (cs + [c])[1..] == cs[1..] + [c] && (cs + [c])[0] == cs[0];
      if cs[0].Some? && Step(st, cs[0].value).Some? {
        BuildSnoc(cs[1..], c, Step(st, cs[0].value).value, lineNo + 1);
      }
    }
  }

  // ---------------------------------------------------------------- acceptance and contents

  /** The state reached is exactly what the lines say. */
  ghost predicate Described(cs: seq<Option<Content>>, st: State) {
    && st.current == SectionAt(cs, |cs|)
    && (forall id :: id in st.declared <==> Headed(cs, |cs|, id))
    && (forall p: seq<string>, v: Node :: p != [] && !v.Table? ==> (GetNode(st.root, p) == Some(v) <==> Stated(cs, |cs|, p, v)))
    && (forall p: seq<string> :: p != [] ==> (TableAt(st.root, p) <==> Opened(cs, |cs|, p)))
  }

  lemma NothingSaid()
    ensures Described([], START)
  {
  }

  lemma FilledIsLeaf(cs: seq<Option<Content>>, st: State, p: seq<string>)
    requires Described(cs, st) && p != []
    ensures LeafAt(st.root, p) <==> Filled(cs, |cs|, p)
  {
    hide GetNode, Puts;
    if LeafAt(st.root, p) {
      var v := GetNode(st.root, p).value;
      assert Stated(cs, |cs|, p, v);
      var i :| 0 <= i < |cs| && States(cs, i, p, v);
      assert Fills(cs, i, p);
    }
    if Filled(cs, |cs|, p) {
      var i :| 0 <= i < |cs| && Fills(cs, i, p);
      var v := Puts(cs, i, p).value;
      assert States(cs, i, p, v) && Stated(cs, |cs|, p, v);
      assert GetNode(st.root, p) == Some(v);
    }
  }

  /** The section a line stands in was opened by its header. */
  lemma {:induction false} SectionOpened(cs: seq<Option<Content>>, i: nat)
    requires i <= |cs|
    ensures SectionAt(cs, i) != [] ==> exists k :: 0 <= k < i && Opens(cs, k, SectionAt(cs, i))
    decreases i
  {
    if i > 0 {
      if cs[i - 1].Some? && cs[i - 1].value.Header? {
        assert SectionAt(cs, i) == [] || Opens(cs, i - 1, SectionAt(cs, i));
      } else {
        SectionOpened(cs, i - 1);
      }
    }
  }

  lemma SectionReachable(cs: seq<Option<Content>>, st: State)
    requires Described(cs, st)
    ensures Reachable(st.root, st.current)
  {
    hide TableAt, Opens;
    SectionOpened(cs, |cs|);
  }

  lemma HeaderFine(cs: seq<Option<Content>>, path: seq<string>, st: State)
    requires Described(cs, st)
    ensures Step(st, Header(path)).Some? <==>
            path != [] && !Headed(cs, |cs|, HeaderId(path)) && forall k :: 0 < k <= |path| ==> !Filled(cs, |cs|, path[..k])
  {
    hide TableAt, LeafAt, Headed, Filled, EnsureTable, GetNode;
    EnsureOk(st.root, path);
    forall k | 0 < k <= |path| ensures LeafAt(st.root, path[..k]) <==> Filled(cs, |cs|, path[..k]) {
      FilledIsLeaf(cs, st, path[..k]);
    }
  }

  lemma AssignFine(cs: seq<Option<Content>>, key: string, w: Node, st: State)
    requires Described(cs, st)
    ensures Step(st, Assign(key, w)).Some? <==>
            !Filled(cs, |cs|, SectionAt(cs, |cs|) + [key]) && !Opened(cs, |cs|, SectionAt(cs, |cs|) + [key])
  {
    hide Headed, Filled, AddEntry, GetNode, Opened, Stated;
    SectionReachable(cs, st);
    AddOk(st.root, st.current, key, w);
    FilledIsLeaf(cs, st, st.current + [key]);
    assert TableAt(st.root, st.current + [key]) <==> Opened(cs, |cs|, st.current + [key]);
  }

  /** A line is accepted exactly when it is fine. */
  lemma StepFine(cs: seq<Option<Content>>, c: Content, st: State)
    requires Described(cs, st)
    ensures Step(st, c).Some? <==> Fine(cs + [Some(c)], |cs|)
  {
    hide Described, Step, Filled, Opened, Headed, Stated;
    var all := cs + [Some(c)];
    assert all[..|cs|] == cs;
    SectionPrefix(all, |cs|, |cs|);
    PrefixSays(all, |cs|, |cs|);
    match c
    case Nothing => NothingFine(st);
    case Header(path) => HeaderFine(cs, path, st);
    case Assign(key, w) => AssignFine(cs, key, w, st);
  }

  lemma NothingFine(st: State)
    ensures Step(st, Nothing) == Some(st)
  {
  }

  /** An accepted line keeps the tree described. */
  lemma StepDescribes(cs: seq<Option<Content>>, c: Content, st: State)
    requires Described(cs, st) && Step(st, c).Some?
    ensures Described(cs + [Some(c)], Step(st, c).value)
  {
    hide Filled, Opened, Headed, Stated, EnsureTable, AddEntry, GetNode, LeafAt, TableAt, Within;
    var n, all, next := |cs|, cs + [Some(c)], Step(st, c).value;
    assert all[..n] == cs;
    SectionPrefix(all, n, n);
    PrefixSays(all, n, n);
    OneMore(all, n);
    forall p: seq<string> | p != []
      ensures forall v: Node :: !v.Table? ==> (GetNode(next.root, p) == Some(v) <==> GetNode(st.root, p) == Some(v) || States(all, n, p, v))
      ensures TableAt(next.root, p) <==> TableAt(st.root, p) || Opens(all, n, p)
    {
      match c
      case Nothing =>
      case Header(path) => EnsureKeeps(st.root, path, p);
      case Assign(key, w) => AddKeeps(st.root, st.current, key, w, p);
    }
  }

  /** A document is accepted exactly when each of its lines is fine; otherwise the error is the number of the
      first that is not; and the tree of an accepted one is described by the lines. */
  lemma {:induction false} BuildMeaning(cs: seq<Option<Content>>)
    ensures var r := Build(cs, START, 1);
            && (r.Ok? <==> AllFine(cs)) && (r.Ok? ==> Described(cs, r.value)) && (r.Err? ==> FirstBad(cs, r.error))
    decreases |cs|
  {
    hide Described, Step, Fine;
    if cs == [] {
      NothingSaid();
    } else {
      var n := |cs| - 1;
      var before := Build(cs[..n], START, 1);
      BuildMeaning(cs[..n]);
      assert cs == cs[..n] + [cs[n]];
      BuildSnoc(cs[..n], cs[n], START, 1);
      hide Build;
      forall j | 0 <= j < n ensures Fine(cs[..n], j) <==> Fine(cs, j) {
        FinePrefix(cs, n, j);
      }
      if before.Ok? {
        if cs[n].Some? {
          StepFine(cs[..n], cs[n].value, before.value);
          if Step(before.value, cs[n].value).Some? {
            StepDescribes(cs[..n], cs[n].value, before.value);
          }
        } else {
          Unreadable(cs, n);
        }
      }
    }
  }

  lemma Unreadable(cs: seq<Option<Content>>, j: nat)
    requires j < |cs| && cs[j].None?
    ensures !Fine(cs, j)
  {
  }

  // ---------------------------------------------------------------- texts and printed documents

  /** The values and tables of an accepted document are those its lines state and open, and nothing else. */
  ghost predicate Contains(root: map<string, Node>, cs: seq<Option<Content>>) {
    && (forall p: seq<string>, v: Node :: p != [] && !v.Table? ==> (GetNode(root, p) == Some(v) <==> Stated(cs, |cs|, p, v)))
    && (forall p: seq<string> :: p != [] ==> (TableAt(root, p) <==> Opened(cs, |cs|, p)))
  }

  /** What the lines of a text say. */
  function ContentsOf(text: string): seq<Option<Content>> {
    ReadAll(Lines(DropReturns(WithoutMark(text))))
  }

  /** Any text at all is accepted exactly when each of its lines is readable and in conflict with none before
      it, refused at the first line that is not, and parsed to what its lines say. */
  lemma ParseMeaning(text: string)
    ensures var r, cs := Parse(text), ContentsOf(text);
            (r.Ok? <==> AllFine(cs)) && (r.Err? ==> FirstBad(cs, r.error)) && (r.Ok? ==> Contains(r.value, cs))
  {
    hide Build, ReadAll, Lines, DropReturns, WithoutMark, AllFine, FirstBad, GetNode, TableAt, Stated, Opened;
    BuildMeaning(ContentsOf(text));
  }

  /** The same of a printed document, in terms of what it was printed from. */
  lemma ParsedMeaning(items: seq<Item>)
    requires forall i :: 0 <= i < |items| ==> ItemOk(items[i])
    ensures var r, cs := Parse(Print(items)), Meanings(items);
            (r.Ok? <==> AllFine(cs)) && (r.Err? ==> FirstBad(cs, r.error)) && (r.Ok? ==> Contains(r.value, cs))
  {
    hide Parse, Print, Build, Meanings, AllFine, FirstBad, GetNode, TableAt, Stated, Opened;
    ParsePrint(items);
    BuildMeaning(Meanings(items));
  }

  /** A setting is readable exactly when its inline table, if it is one, repeats no key. */
  lemma ReadableIff(key: Text, value: Value)
    ensures Meaning(Setting(key, value)).Some? <==>
            value.Inline? ==> forall i, j :: 0 <= i < j < |value.entries| ==> value.entries[i].key.text != value.entries[j].key.text
  {
    if value.Inline? {
      FieldsIff(value.entries, map[]);
    }
  }

  lemma {:induction false} FieldsIff(es: seq<Entry>, sofar: map<string, Node>)
    ensures Fields(es, sofar).Some? <==>
            && (forall i :: 0 <= i < |es| ==> es[i].key.text !in sofar)
            && (forall i, j :: 0 <= i < j < |es| ==> es[i].key.text != es[j].key.text)
    decreases |es|
  {
    if es != [] && es[0].key.text !in sofar {
      var next := sofar[es[0].key.text := ScalarNode(es[0].value)];
      FieldsIff(es[1..], next);
      forall i | 0 < i < |es| ensures es[i] == es[1..][i - 1] {
      }
      if Fields(es, sofar).Some? {
        forall i, j | 0 <= i < j < |es| ensures es[i].key.text != es[j].key.text {
          assert es[1..][j - 1].key.text !in next;
        }
      }
    }
  }
}
