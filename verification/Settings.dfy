/** The settings manager: layered resolution, path edits, persist-before-commit and optimistic concurrency
    (backend/pkg/settings/settings.go).

    Documents are JSON values with integer numbers; equality of values is what deepEqual computes. */
module Settings {
  import opened Wrappers

  datatype Json =
    | Null
    | Bool(b: bool)
    | Num(n: int)
    | Str(s: string)
    | Arr(items: seq<Json>)
    | Obj(fields: map<string, Json>)

  type Section = map<string, Json>

  // ---------------------------------------------------------------- deep equality

  /** The recursive comparison: by kind, by length, then item by item or key by key. */
  predicate DeepEqual(a: Json, b: Json)
    decreases a
  {
    match a
    case Obj(am) => b.Obj? && |am| == |b.fields| && forall k <- am.Keys :: k in b.fields && DeepEqual(am[k], b.fields[k])
    case Arr(al) => b.Arr? && |al| == |b.items| && forall i :: 0 <= i < |al| ==> DeepEqual(al[i], b.items[i])
    case _ => a == b
  }

  lemma {:induction false} SameSizeSubset<T>(a: set<T>, b: set<T>)
    requires a <= b && |a| == |b|
    ensures a == b
    decreases |a|
  {
    if a != {} {
      var x :| x in a;
      SameSizeSubset(a - {x}, b - {x});
      assert a == (a - {x}) + {x} && b == (b - {x}) + {x};
    }
  }

  /** The gate in front of notifications and revision bumps is exact: it closes on equal values only. */
  lemma {:induction false} DeepEqualIff(a: Json, b: Json)
    ensures DeepEqual(a, b) <==> a == b
    decreases a
  {
    match a
    case Obj(am) =>
      if b.Obj? {
        var bm := b.fields;
        forall k <- am.Keys | k in bm ensures DeepEqual(am[k], bm[k]) <==> am[k] == bm[k] {
          DeepEqualIff(am[k], bm[k]);
        }
        if DeepEqual(a, b) {
          assert am.Keys <= bm.Keys && |am.Keys| == |am| && |bm.Keys| == |bm|;
          SameSizeSubset(am.Keys, bm.Keys);
          assert am == bm;
        }
      }
    case Arr(al) =>
      if b.Arr? && |al| == |b.items| {
        forall i | 0 <= i < |al| ensures DeepEqual(al[i], b.items[i]) <==> al[i] == b.items[i] {
          DeepEqualIff(al[i], b.items[i]);
        }
      }
    case _ =>
  }

  // ---------------------------------------------------------------- layers

  /** Plain objects merge recursively; every other value of the upper layer replaces the lower one. */
  function Merge(under: Section, over: Section): Section
    decreases Obj(over), 0
  {
    map k | k in under.Keys + over.Keys ::
      if k !in over then under[k] else MergeValue(if k in under then under[k] else Null, over[k])
  }

  function MergeValue(under: Json, over: Json): Json
    decreases over, 1
  {
    if over.Obj? && under.Obj? then Obj(Merge(under.fields, over.fields)) else over
  }

  /** The value at a path of object keys. */
  function Get(section: Section, path: seq<string>): Option<Json>
    requires path != []
    decreases |path|
  {
    if path[0] !in section then None
    else if |path| == 1 then Some(section[path[0]])
    else if section[path[0]].Obj? then Get(section[path[0]].fields, path[1..])
    else None
  }

  /** The layer says nothing about the path: it binds neither the path nor a prefix of it to a value that
      is not an object. */
  predicate Silent(section: Section, path: seq<string>)
    requires path != []
    decreases |path|
  {
    path[0] in section ==> |path| > 1 && section[path[0]].Obj? && Silent(section[path[0]].fields, path[1..])
  }

  /** What the upper layer sets is the result. */
  lemma {:induction false} MergeTakesOver(under: Section, over: Section, path: seq<string>)
    requires path != [] && Get(over, path).Some? && !Get(over, path).value.Obj?
    ensures Get(Merge(under, over), path) == Get(over, path)
    decreases |path|
  {
    if |path| > 1 {
      var below := if path[0] in under then under[path[0]] else Null;
      if below.Obj? {
        MergeTakesOver(below.fields, over[path[0]].fields, path[1..]);
      }
    }
  }

  /** Where the upper layer is silent the lower one shows through. */
  lemma {:induction false} MergeKeepsUnder(under: Section, over: Section, path: seq<string>)
    requires path != [] && Silent(over, path)
    requires Get(under, path).Some?
    ensures Get(Merge(under, over), path) == Get(under, path)
    decreases |path|
  {
    if path[0] in over {
      MergeKeepsUnder(under[path[0]].fields, over[path[0]].fields, path[1..]);
    }
  }

  /** Nothing is invented: a path bound by neither layer is not bound. */
  lemma {:induction false} MergeInvents(under: Section, over: Section, path: seq<string>)
    requires path != [] && Get(Merge(under, over), path).Some?
    ensures Get(under, path).Some? || Get(over, path).Some?
    decreases |path|
  {
    if |path| > 1 && path[0] in over {
      var below := if path[0] in under then under[path[0]] else Null;
      if below.Obj? && over[path[0]].Obj? {
        MergeInvents(below.fields, over[path[0]].fields, path[1..]);
      }
    }
  }

  /** Layers are folded from the bottom: bracketing them from the top gives another value, because a
      scalar in the middle layer cuts off what is below it. */
  lemma MergeOrderMatters()
    ensures exists a: Section, b: Section, c: Section :: Merge(Merge(a, b), c) != Merge(a, Merge(b, c))
  {
    var inner, outer: Section := map["y" := Num(1)], map["z" := Num(2)];
    var a, b, c: Section := map["x" := Obj(inner)], map["x" := Num(0)], map["x" := Obj(outer)];
    assert Merge(Merge(a, b), c)["x"] == Obj(outer);
    assert Merge(b, c)["x"] == Obj(outer);
    assert Merge(a, Merge(b, c))["x"] == Obj(Merge(inner, outer));
    assert "y" in Merge(inner, outer) && "y" !in outer;
    assert Merge(Merge(a, b), c) != Merge(a, Merge(b, c));
  }

  /** The upper layer binds every key of the lower one, and so on inside common objects. */
  ghost predicate Covers(over: Section, under: Section)
    decreases Obj(over), 0
  {
    forall k <- under.Keys :: k in over && ValueCovers(over[k], under[k])
  }

  ghost predicate ValueCovers(over: Json, under: Json)
    decreases over, 1
  {
    over.Obj? && under.Obj? ==> Covers(over.fields, under.fields)
  }

  /** Merging leaves the upper layer as it is exactly when it covers the lower one. */
  lemma {:induction false} CoversIff(over: Section, under: Section)
    ensures Merge(under, over) == over <==> Covers(over, under)
    decreases Obj(over)
  {
    hide Covers, ValueCovers;
    var m := Merge(under, over);
    forall k <- under.Keys | k in over
      ensures MergeValue(under[k], over[k]) == over[k] <==> ValueCovers(over[k], under[k])
    {
      if over[k].Obj? && under[k].Obj? {
        CoversIff(over[k].fields, under[k].fields);
      }
      ValueCoversDef(over[k], under[k]);
    }
    forall k <- over.Keys | k !in under ensures m[k] == over[k] {
      assert m[k] == MergeValue(Null, over[k]);
      OverNothing(over[k]);
    }
    CoversDef(over, under);
    if m == over {
      forall k <- under.Keys ensures k in over && ValueCovers(over[k], under[k]) {
        assert k in m.Keys;
        assert m[k] == over[k];
      }
    }
    if Covers(over, under) {
      assert m.Keys == over.Keys;
      forall k <- over.Keys ensures m[k] == over[k] {
      }
    }
  }

  lemma OverNothing(over: Json)
    ensures MergeValue(Null, over) == over
  {
  }

  lemma ValueCoversDef(over: Json, under: Json)
    ensures ValueCovers(over, under) <==> (over.Obj? && under.Obj? ==> Covers(over.fields, under.fields))
  {
  }

  lemma CoversDef(over: Section, under: Section)
    ensures Covers(over, under) <==> forall k <- under.Keys :: k in over && ValueCovers(over[k], under[k])
  {
  }

  /** At every key all three layers bind: where the middle value is no object it stands between objects only
      when the upper one covers the lower one; common objects agree inside. */
  ghost predicate Agree(a: Section, b: Section, c: Section)
    decreases Obj(c), 0
  {
    forall k <- a.Keys :: k in b && k in c ==> ValuesAgree(a[k], b[k], c[k])
  }

  ghost predicate ValuesAgree(x: Json, y: Json, z: Json)
    decreases z, 1
  {
    x.Obj? && z.Obj? ==> if y.Obj? then Agree(x.fields, y.fields, z.fields) else Covers(z.fields, x.fields)
  }

  /** The two bracketings of three layers give the same value exactly when the layers agree. */
  lemma {:induction false} MergeOrderIff(a: Section, b: Section, c: Section)
    ensures Merge(Merge(a, b), c) == Merge(a, Merge(b, c)) <==> Agree(a, b, c)
    decreases Obj(c), 0
  {
    hide Agree, ValuesAgree, Merge, MergeValue;
    var left, right := Merge(Merge(a, b), c), Merge(a, Merge(b, c));
    forall k ensures k in left <==> k in a || k in b || k in c
             ensures k in right <==> k in a || k in b || k in c
             ensures k in left && k in right ==>
                       (left[k] == right[k] <==> (k in a && k in b && k in c ==> ValuesAgree(a[k], b[k], c[k])))
    {
      AtKey(a, b, c, k);
      if k in a && k in b && k in c {
        ValueOrderIff(a[k], b[k], c[k]);
      }
    }
    AgreeDef(a, b, c);
    if Agree(a, b, c) {
      assert left.Keys == right.Keys;
      assert left == right;
    }
  }

  lemma AgreeDef(a: Section, b: Section, c: Section)
    ensures Agree(a, b, c) <==> forall k <- a.Keys :: k in b && k in c ==> ValuesAgree(a[k], b[k], c[k])
  {
  }

  /** The two bracketings at one key. */
  lemma AtKey(a: Section, b: Section, c: Section, k: string)
    ensures var left, right := Merge(Merge(a, b), c), Merge(a, Merge(b, c));
            && (k in left <==> k in a || k in b || k in c)
            && (k in right <==> k in a || k in b || k in c)
            && (k in left && !(k in a && k in b && k in c) ==> left[k] == right[k])
            && (k in a && k in b && k in c ==>
                  && left[k] == MergeValue(MergeValue(a[k], b[k]), c[k])
                  && right[k] == MergeValue(a[k], MergeValue(b[k], c[k])))
  {
  }

  lemma {:induction false} ValueOrderIff(x: Json, y: Json, z: Json)
    ensures MergeValue(MergeValue(x, y), z) == MergeValue(x, MergeValue(y, z)) <==> ValuesAgree(x, y, z)
    decreases z, 1
  {
    hide Merge, Agree, Covers;
    if x.Obj? && z.Obj? {
      if y.Obj? {
        MergeOrderIff(x.fields, y.fields, z.fields);
      } else {
        CoversIff(z.fields, x.fields);
      }
    }
  }

  // ---------------------------------------------------------------- schema defaults

  /** A JSON schema as far as defaults go; an absent default is null. */
  datatype Schema = Schema(default: Json, properties: map<string, Schema>)

  /** Collects default values; an explicit object default of the whole schema wins. */
  function Defaults(s: Schema): Section
    decreases s, 0
  {
    if s.default.Obj? then s.default.fields
    else map k | k in s.properties && HasDefault(s.properties[k]) :: DefaultOf(s.properties[k])
  }

  predicate HasDefault(p: Schema)
    decreases p, 1
  {
    p.default != Null || (p.properties != map[] && Defaults(p) != map[])
  }

  function DefaultOf(p: Schema): Json
    decreases p, 1
  {
    if p.default != Null then p.default else Obj(Defaults(p))
  }

  /** The loop over the properties of one schema. */
  method SchemaDefaults(s: Schema) returns (out: Section)
    ensures out == Defaults(s)
    decreases s
  {
    if s.default.Obj? {
      return s.default.fields;
    }
    out := map[];
    var todo := s.properties.Keys;
    while todo != {}
      invariant todo <= s.properties.Keys
      invariant out == map k | k in s.properties && k !in todo && HasDefault(s.properties[k]) :: DefaultOf(s.properties[k])
      decreases |todo|
    {
      var k :| k in todo;
      var p := s.properties[k];
      todo := todo - {k};
      if p.default != Null {
        out := out[k := p.default];
      } else if p.properties != map[] {
        var nested := SchemaDefaults(p);
        if nested != map[] {
          out := out[k := Obj(nested)];
        }
      }
    }
  }

  /** What a schema declares for a path: the value found inside the first explicit default on the way. */
  ghost function Declared(s: Schema, path: seq<string>): Option<Json>
    requires path != []
    decreases |path|
  {
    if s.default.Obj? then Get(s.default.fields, path)
    else if path[0] !in s.properties then None
    else
      var p := s.properties[path[0]];
      if p.default == Null then (if |path| == 1 then None else Declared(p, path[1..]))
      else if |path| == 1 then Some(p.default)
      else if p.default.Obj? then Get(p.default.fields, path[1..])
      else None
  }

  /** The collected defaults hold, leaf by leaf, exactly what the schema declares. */
  lemma {:induction false} DefaultsIff(s: Schema, path: seq<string>, v: Json)
    requires path != [] && !v.Obj?
    ensures Get(Defaults(s), path) == Some(v) <==> Declared(s, path) == Some(v)
    decreases |path|
  {
    if !s.default.Obj? && path[0] in s.properties && |path| > 1 {
      var p := s.properties[path[0]];
      if p.default == Null {
        DefaultsIff(p, path[1..], v);
      }
    }
  }

  /** The layers of a resolved value, leaf by leaf: the user section over the base layer over the defaults. */
  lemma ResolvedLeaf(schema: Schema, base: Section, user: Section, path: seq<string>)
    requires path != []
    ensures Get(user, path).Some? && !Get(user, path).value.Obj? ==>
              Get(Resolve(schema, base, user), path) == Get(user, path)
    ensures Silent(user, path) && Get(base, path).Some? && !Get(base, path).value.Obj? ==>
              Get(Resolve(schema, base, user), path) == Get(base, path)
    ensures forall v: Json :: Silent(user, path) && Silent(base, path) && !v.Obj? && Declared(schema, path) == Some(v) ==>
              Get(Resolve(schema, base, user), path) == Some(v)
    ensures Get(Resolve(schema, base, user), path).Some? ==>
              Get(user, path).Some? || Get(base, path).Some? || Get(Defaults(schema), path).Some?
  {
    hide Get, Silent, Merge, Defaults, Declared;
    var defaults := Defaults(schema);
    var under := Merge(defaults, base);
    if Get(user, path).Some? && !Get(user, path).value.Obj? {
      MergeTakesOver(under, user, path);
    }
    if Get(base, path).Some? && !Get(base, path).value.Obj? {
      MergeTakesOver(defaults, base, path);
    }
    if Silent(base, path) && Get(defaults, path).Some? {
      MergeKeepsUnder(defaults, base, path);
    }
    if Silent(user, path) && Get(under, path).Some? {
      MergeKeepsUnder(under, user, path);
    }
    if Declared(schema, path).Some? && !Declared(schema, path).value.Obj? {
      DefaultsIff(schema, path, Declared(schema, path).value);
    }
    if Get(Merge(under, user), path).Some? {
      MergeInvents(under, user, path);
      if Get(under, path).Some? {
        MergeInvents(defaults, base, path);
      }
    }
  }

  // ---------------------------------------------------------------- path edits

  datatype Op = Set(path: seq<string>, value: Json) | Unset(path: seq<string>) | Unknown(path: seq<string>)

  /** One edit. A set replaces a non-object on its way by an object; an unset of a path that is not there
      changes nothing. */
  function ApplyPathOp(section: Section, op: Op): Section
    requires op.path != []
    decreases |op.path|
  {
    var head := op.path[0];
    if |op.path| == 1 then
      match op
      case Unset(_) => section - {head}
      case Set(_, v) => section[head := v]
      case Unknown(_) => section
    else
      var child := if head in section && section[head].Obj? then Some(section[head].fields) else None;
      if child == None && op.Unset? then section
      else section[head := Obj(ApplyPathOp(if child.Some? then child.value else map[], op.(path := op.path[1..])))]
  }

  /** Reading a path just set gives the value. */
  lemma {:induction false} SetThenGet(section: Section, path: seq<string>, v: Json)
    requires path != []
    ensures Get(ApplyPathOp(section, Set(path, v)), path) == Some(v)
    decreases |path|
  {
    if |path| > 1 {
      var head := path[0];
      var child := if head in section && section[head].Obj? then section[head].fields else map[];
      SetThenGet(child, path[1..], v);
    }
  }

  lemma {:induction false} UnsetThenGet(section: Section, path: seq<string>)
    requires path != []
    ensures Get(ApplyPathOp(section, Unset(path)), path) == None
    decreases |path|
  {
    if |path| > 1 {
      var head := path[0];
      if head in section && section[head].Obj? {
        UnsetThenGet(section[head].fields, path[1..]);
      }
    }
  }

  lemma PrefixTail(p: seq<string>, q: seq<string>)
    requires p != [] && q != [] && p[0] == q[0]
    ensures p <= q <==> p[1..] <= q[1..]
  {
    assert p == [p[0]] + p[1..] && q == [q[0]] + q[1..];
  }

  /** An edit changes nothing at paths that neither extend its own nor are extended by it. */
  lemma {:induction false} EditKeepsOthers(section: Section, op: Op, path: seq<string>)
    requires op.path != [] && path != [] && (op.Set? || op.Unset?)
    requires !(op.path <= path) && !(path <= op.path)
    ensures Get(ApplyPathOp(section, op), path) == Get(section, path)
    decreases |path|
  {
    var head := op.path[0];
    if path[0] == head {
      PrefixTail(op.path, path);
      PrefixTail(path, op.path);
      var child := if head in section && section[head].Obj? then section[head].fields else map[];
      EditKeepsOthers(child, op.(path := op.path[1..]), path[1..]);
    }
  }

  function ApplyOps(section: Section, ops: seq<Op>): Section
    requires forall i :: 0 <= i < |ops| ==> ops[i].path != []
  {
    if ops == [] then section else ApplyPathOp(ApplyOps(section, ops[..|ops| - 1]), ops[|ops| - 1])
  }

  // ---------------------------------------------------------------- the manager

  type Document = map<string, Json>

  datatype Registration = Registration(schema: Schema, base: Section, writable: bool, resolved: Section, revision: nat)

  datatype Failure =
    | InvalidNamespace
    | AlreadyRegistered
    | NotRegistered
    | ReadOnly
    | Conflict(expected: int, actual: int)
    | BadOp
    | PersistFailed

  /** What the installed callback does with a write; NoCallback when there is none. */
  datatype Persisting = NoCallback | Accepts | Refuses

  /** The raw user section; null stands for an absent one. */
  function Raw(doc: Document, ns: string): Json {
    if ns in doc then doc[ns] else Null
  }

  function SectionOf(doc: Document, ns: string): Section {
    if ns in doc && doc[ns].Obj? then doc[ns].fields else map[]
  }

  /** Schema defaults, then the base layer, then the user section. */
  function Resolve(schema: Schema, base: Section, user: Section): Section {
    Merge(Merge(Defaults(schema), base), user)
  }

  predicate ValidNamespace(ns: string) {
    ns != "" && forall i :: 0 <= i < |ns| ==> 'a' <= ns[i] <= 'z' || '0' <= ns[i] <= '9' || ns[i] == '-'
  }

  predicate ValidOp(op: Op) {
    !op.Unknown? && op.path != [] && "" !in op.path
  }

  /** The merged value of one key. */
  function MergeAt(under: Section, over: Section, k: string): Json
    requires k in under || k in over
  {
    if k !in over then under[k] else MergeValue(if k in under then under[k] else Null, over[k])
  }

  /** A layering that still has the keys in `todo` to do. */
  ghost predicate Partly(under: Section, over: Section, todo: set<string>, out: Section) {
    && (forall k :: k in out <==> k in under || (k in over && k !in todo))
    && (forall k <- out.Keys :: (k in over && k !in todo ==> out[k] == MergeAt(under, over, k)) &&
                                (k !in over || k in todo ==> k in under && out[k] == under[k]))
  }

  lemma PartlyNone(under: Section, over: Section)
    ensures Partly(under, over, over.Keys, under)
  {
    hide MergeAt;
  }

  lemma PartlyStep(under: Section, over: Section, todo: set<string>, out: Section, k: string)
    requires Partly(under, over, todo, out) && k in todo && k in over
    ensures Partly(under, over, todo - {k}, out[k := MergeValue(if k in out then out[k] else Null, over[k])])
  {
    hide MergeValue;
  }

  lemma PartlyAll(under: Section, over: Section, out: Section)
    requires Partly(under, over, {}, out)
    ensures out == Merge(under, over)
  {
    hide MergeValue;
    assert out.Keys == under.Keys + over.Keys;
  }

  /** Layers `over` onto `under` key by key. */
  method MergeLayers(under: Section, over: Section) returns (out: Section)
    ensures out == Merge(under, over)
    decreases Obj(over), 0
  {
    hide Merge, MergeValue, Partly;
    out := under;
    var todo := over.Keys;
    PartlyNone(under, over);
    while todo != {}
      invariant todo <= over.Keys && Partly(under, over, todo, out)
      decreases |todo|
    {
      var k :| k in todo;
      PartlyStep(under, over, todo, out, k);
      var merged := LayerOne(if k in out then out[k] else Null, over[k]);
      out := out[k := merged];
      todo := todo - {k};
    }
    PartlyAll(under, over, out);
  }

  method LayerOne(under: Json, over: Json) returns (out: Json)
    ensures out == MergeValue(under, over)
    decreases over, 1
  {
    if over.Obj? && under.Obj? {
      var merged := MergeLayers(under.fields, over.fields);
      out := Obj(merged);
    } else {
      out := over;
    }
  }

  /** A registration in any reachable state: its resolved value is the layering of the current document,
      and `shown`, the raw sections by revision, ends with the current one. */
  ghost predicate RegOk(reg: Registration, doc: Document, ns: string, shown: seq<Json>) {
    && reg.resolved == Resolve(reg.schema, reg.base, SectionOf(doc, ns))
    && |shown| == reg.revision + 1 && shown[reg.revision] == Raw(doc, ns)
  }

  lemma RegFrame(reg: Registration, doc: Document, ns: string, shown: seq<Json>, other: string, v: Json)
    requires RegOk(reg, doc, ns, shown) && ns != other
    ensures RegOk(reg, doc[other := v], ns, shown)
  {
    hide Resolve;
  }

  /** Taking a staged section back restores the document, whether or not there was a section before. */
  lemma RollsBack(doc: Document, ns: string, staged: Json)
    ensures (if ns in doc then doc[ns := staged][ns := Raw(doc, ns)] else doc[ns := staged] - {ns}) == doc
  {
    var back := if ns in doc then doc[ns := staged][ns := Raw(doc, ns)] else doc[ns := staged] - {ns};
    assert back.Keys == doc.Keys;
  }

  /** A registration after its section was replaced. */
  function Rewritten(reg: Registration, section: Section): Registration {
    reg.(revision := reg.revision + 1, resolved := Resolve(reg.schema, reg.base, section))
  }

  ghost predicate RegsOk(regs: map<string, Registration>, doc: Document, shown: map<string, seq<Json>>) {
    && shown.Keys == regs.Keys
    && forall ns <- regs.Keys :: RegOk(regs[ns], doc, ns, shown[ns])
  }

  lemma RegIn(regs: map<string, Registration>, doc: Document, shown: map<string, seq<Json>>, ns: string)
    requires RegsOk(regs, doc, shown) && ns in regs
    ensures ns in shown && RegOk(regs[ns], doc, ns, shown[ns])
  {
    hide RegOk;
  }

  lemma RegsWritten(regs: map<string, Registration>, doc: Document, shown: map<string, seq<Json>>, ns: string,
                    section: Section)
    requires RegsOk(regs, doc, shown) && ns in regs
    ensures ns in shown
    ensures RegsOk(regs[ns := Rewritten(regs[ns], section)], doc[ns := Obj(section)], shown[ns := shown[ns] + [Obj(section)]])
  {
    hide RegOk, Rewritten;
    RegRewritten(regs[ns], doc, ns, shown[ns], section);
    forall x <- regs.Keys | x != ns ensures RegOk(regs[x], doc[ns := Obj(section)], x, shown[x]) {
      RegFrame(regs[x], doc, x, shown[x], ns, Obj(section));
    }
  }

  lemma RegsAdd(regs: map<string, Registration>, doc: Document, shown: map<string, seq<Json>>, ns: string, reg: Registration)
    requires RegsOk(regs, doc, shown) && RegOk(reg, doc, ns, [Raw(doc, ns)])
    ensures RegsOk(regs[ns := reg], doc, shown[ns := [Raw(doc, ns)]])
  {
    hide RegOk;
  }

  lemma RegRewritten(reg: Registration, doc: Document, ns: string, shown: seq<Json>, section: Section)
    requires RegOk(reg, doc, ns, shown)
    ensures RegOk(Rewritten(reg, section), doc[ns := Obj(section)], ns, shown + [Obj(section)])
  {
    hide Resolve;
  }

  class Manager {
    var regs: map<string, Registration>
    var doc: Document
    /** The snapshot persistence serialises. */
    var pub: Document
    var docLoaded: bool
    /** What the store holds, once a write was accepted. */
    var disk: Option<Document>
    /** For every namespace, the raw section that stood at each revision, as a reader of that revision
        saw it since the first load. */
    ghost var shown: map<string, seq<Json>>

    /** Every resolved value is the layering of the current document, and the snapshot is the document. */
    ghost predicate Valid()
      reads this
    {
      pub == doc && RegsOk(regs, doc, shown)
    }

    constructor ()
      ensures Valid() && regs == map[] && doc == map[] && !docLoaded
    {
      regs, doc, pub, docLoaded, disk, shown := map[], map[], map[], false, None, map[];
    }

    /** A new namespace starts at revision 0 with the section the document already holds. */
    method Register(ns: string, schema: Schema, base: Section, writable: bool) returns (r: Result<(), Failure>)
      requires Valid()
      modifies this`regs, this`shown
      ensures Valid()
      ensures r == if !ValidNamespace(ns) then Err(InvalidNamespace)
                   else if ns in old(regs) then Err(AlreadyRegistered) else Ok(())
      ensures r == Err(InvalidNamespace) <==>
              !(ns != "" && forall c <- ns :: c == '-' || '0' <= c <= '9' || 'a' <= c <= 'z')
      ensures r.Err? ==> regs == old(regs) && shown == old(shown)
      ensures r.Ok? ==>
                && regs == old(regs)[ns := Registration(schema, base, writable, Resolve(schema, base, SectionOf(doc, ns)), 0)]
                && shown == old(shown)[ns := [Raw(doc, ns)]]
    {
      hide Resolve, Merge, Defaults;
      var kebab := IsKebab(ns);
      if !kebab {
        return Err(InvalidNamespace);
      }
      if ns in regs {
        return Err(AlreadyRegistered);
      }
      var resolved := ResolveLayers(schema, base, SectionOf(doc, ns));
      RegsAdd(regs, doc, shown, ns, Registration(schema, base, writable, resolved, 0));
      regs := regs[ns := Registration(schema, base, writable, resolved, 0)];
      shown := shown[ns := [Raw(doc, ns)]];
      return Ok(());
    }

    static method IsKebab(ns: string) returns (ok: bool)
      ensures ok == ValidNamespace(ns)
      ensures ok <==> ns != "" && forall c <- ns :: c == '-' || '0' <= c <= '9' || 'a' <= c <= 'z'
    {
      if ns == "" {
        return false;
      }
      for i := 0 to |ns|
        invariant forall k :: 0 <= k < i ==> 'a' <= ns[k] <= 'z' || '0' <= ns[k] <= '9' || ns[k] == '-'
      {
        if !('a' <= ns[i] <= 'z' || '0' <= ns[i] <= '9') && ns[i] != '-' {
          assert ns[i] in ns;
          return false;
        }
      }
      return true;
    }

    static method ResolveLayers(schema: Schema, base: Section, user: Section) returns (out: Section)
      ensures out == Resolve(schema, base, user)
    {
      out := SchemaDefaults(schema);
      out := MergeLayers(out, base);
      out := MergeLayers(out, user);
    }

    /** What a reader of a registered namespace sees at a path: the document's own value, else that of the
        base layer, else the schema's. */
    lemma Effective(ns: string, path: seq<string>)
      requires Valid() && ns in regs && path != []
      ensures ns in doc && doc[ns].Obj? && Get(doc[ns].fields, path).Some? && !Get(doc[ns].fields, path).value.Obj? ==>
                Get(regs[ns].resolved, path) == Get(doc[ns].fields, path)
      ensures (ns in doc && doc[ns].Obj? ==> Silent(doc[ns].fields, path)) ==>
                && (Get(regs[ns].base, path).Some? && !Get(regs[ns].base, path).value.Obj? ==>
                      Get(regs[ns].resolved, path) == Get(regs[ns].base, path))
                && (forall v: Json :: Silent(regs[ns].base, path) && !v.Obj? && Declared(regs[ns].schema, path) == Some(v) ==>
                      Get(regs[ns].resolved, path) == Some(v))
    {
      hide Resolve, Get, Declared;
      RegIn(regs, doc, shown, ns);
      ResolvedLeaf(regs[ns].schema, regs[ns].base, SectionOf(doc, ns), path);
    }

    /** The checks in front of a write, in order. */
    function Admit(ns: string, expected: Option<int>): (r: Option<Failure>)
      reads this`regs
      ensures r == Some(NotRegistered) <==> ns !in regs
      ensures r == Some(ReadOnly) <==> ns in regs && !regs[ns].writable
      ensures r.Some? && r.value.Conflict? <==>
              ns in regs && regs[ns].writable && expected.Some? && expected.value != regs[ns].revision
      ensures r.Some? && r.value.Conflict? ==> r.value == Conflict(expected.value, regs[ns].revision)
      ensures r.Some? ==> r.value.NotRegistered? || r.value.ReadOnly? || r.value.Conflict?
    {
      if ns !in regs then Some(NotRegistered)
      else if !regs[ns].writable then Some(ReadOnly)
      else if expected.Some? && expected.value != regs[ns].revision then Some(Conflict(expected.value, regs[ns].revision))
      else None
    }

    /** Stages the section, persists, and commits only what the store accepted: a refused write leaves the
        document, the snapshot, the revision and the resolved value as they were. A committed write moves
        the revision by one and notifies exactly when the resolved value changed. */
    method Write(ns: string, section: Section, persist: Persisting) returns (r: Result<int, Failure>, notified: bool)
      requires Valid() && ns in regs
      modifies this`regs, this`doc, this`pub, this`disk, this`shown
      ensures Valid()
      ensures r.Err? <==> persist == Refuses
      ensures r.Err? ==> r.error == PersistFailed && !notified && shown == old(shown)
      ensures r.Err? ==> regs == old(regs) && doc == old(doc) && pub == old(pub) && disk == old(disk)
      ensures r.Ok? ==> Committed(old(regs), old(doc), old(shown), ns, section, r.value, notified)
      ensures disk == if persist == Accepts then Some(doc) else old(disk)
    {
      hide RegsOk, Rewritten;
      var hadPrev := ns in doc;
      var prevSection := Raw(doc, ns);
      doc := doc[ns := Obj(section)];
      pub := doc;
      if persist == Refuses {
        RollsBack(old(doc), ns, Obj(section));
        doc := if hadPrev then doc[ns := prevSection] else doc - {ns};
        pub := doc;
        return Err(PersistFailed), false;
      }
      if persist == Accepts {
        disk := Some(pub);
      }
      RegsWritten(regs, old(doc), shown, ns, section);
      var reg, changed := Commit(regs[ns], section);
      notified := changed;
      regs := regs[ns := reg];
      shown := shown[ns := shown[ns] + [Obj(section)]];
      r := Ok(reg.revision);
    }

    /** The revision moves; the resolved value is replaced when it changed. */
    static method Commit(reg: Registration, section: Section) returns (out: Registration, changed: bool)
      ensures out == Rewritten(reg, section) && out.revision == reg.revision + 1
      ensures changed <==> out.resolved != reg.resolved
    {
      hide Resolve, DeepEqual;
      var next := ResolveLayers(reg.schema, reg.base, section);
      DeepEqualIff(Obj(reg.resolved), Obj(next));
      changed := !DeepEqual(Obj(reg.resolved), Obj(next));
      out := reg.(revision := reg.revision + 1, resolved := if changed then next else reg.resolved);
    }

    /** The state after a committed write of one namespace. */
    ghost predicate Committed(regs0: map<string, Registration>, doc0: Document, shown0: map<string, seq<Json>>, ns: string,
                              section: Section, revision: int, notified: bool)
      reads this`regs, this`doc, this`pub, this`shown
    {
      && ns in regs0 && ns in shown0
      && doc == doc0[ns := Obj(section)] && pub == doc
      && revision == regs0[ns].revision + 1
      && regs == regs0[ns := Rewritten(regs0[ns], section)]
      && (notified <==> Rewritten(regs0[ns], section).resolved != regs0[ns].resolved)
      && shown == shown0[ns := shown0[ns] + [Obj(section)]]
    }

    /** Path edits of a namespace. With an expected revision the edits are applied to the very section the
        caller read at that revision, so no write in between is lost. */
    method Mutate(ns: string, ops: seq<Op>, expected: Option<int>, persist: Persisting)
      returns (r: Result<int, Failure>, notified: bool)
      requires Valid()
      modifies this`regs, this`doc, this`pub, this`disk, this`shown
      ensures Valid()
      ensures var bad := exists op <- ops :: op.Unknown? || op.path == [] || "" in op.path;
              r.Err? <==> old(Admit(ns, expected)).Some? || (ops != [] && (bad || persist == Refuses))
      ensures old(Admit(ns, expected)).Some? ==> r == Err(old(Admit(ns, expected)).value)
      ensures r.Err? || ops == [] ==>
                regs == old(regs) && doc == old(doc) && pub == old(pub) && disk == old(disk) && shown == old(shown) && !notified
      ensures r.Ok? && ops == [] ==> ns in regs && r.value == regs[ns].revision
      ensures r.Ok? && ops != [] ==>
                && (forall i :: 0 <= i < |ops| ==> ops[i].path != [])
                && Committed(old(regs), old(doc), old(shown), ns, ApplyOps(SectionOf(old(doc), ns), ops), r.value, notified)
      ensures r.Ok? && expected.Some? ==>
                && ns in old(shown) && 0 <= expected.value < |old(shown)[ns]|
                && old(shown)[ns][expected.value] == Raw(old(doc), ns)
    {
      hide Resolve, Merge, Defaults, ApplyOps;
      notified := false;
      var refusal := Admit(ns, expected);
      if refusal.Some? {
        return Err(refusal.value), false;
      }
      RegIn(regs, doc, shown, ns);
      if ops == [] {
        return Ok(regs[ns].revision), false;
      }
      for i := 0 to |ops|
        invariant forall k :: 0 <= k < i ==> ValidOp(ops[k])
      {
        if !ValidOp(ops[i]) {
          return Err(BadOp), false;
        }
      }
      var section := EditAll(SectionOf(doc, ns), ops);
      r, notified := Write(ns, section, persist);
    }

    static method EditAll(section: Section, ops: seq<Op>) returns (out: Section)
      requires forall i :: 0 <= i < |ops| ==> ops[i].path != []
      ensures out == ApplyOps(section, ops)
    {
      out := section;
      for i := 0 to |ops|
        invariant out == ApplyOps(section, ops[..i])
      {
        assert ops[..i + 1][..i] == ops[..i];
        out := ApplyPathOp(out, ops[i]);
      }
      assert ops[..|ops|] == ops;
    }

    /** Replaces a namespace's section wholesale. */
    method Set(ns: string, section: Section, expected: Option<int>, persist: Persisting)
      returns (r: Result<int, Failure>, notified: bool)
      requires Valid()
      modifies this`regs, this`doc, this`pub, this`disk, this`shown
      ensures Valid()
      ensures r.Err? <==> old(Admit(ns, expected)).Some? || persist == Refuses
      ensures old(Admit(ns, expected)).Some? ==> r == Err(old(Admit(ns, expected)).value)
      ensures r.Err? ==>
                regs == old(regs) && doc == old(doc) && pub == old(pub) && disk == old(disk) && shown == old(shown) && !notified
      ensures r.Ok? ==> Committed(old(regs), old(doc), old(shown), ns, section, r.value, notified)
      ensures r.Ok? && expected.Some? ==>
                && ns in old(shown) && 0 <= expected.value < |old(shown)[ns]|
                && old(shown)[ns][expected.value] == Raw(old(doc), ns)
    {
      hide Resolve, Merge, Defaults;
      var refusal := Admit(ns, expected);
      if refusal.Some? {
        return Err(refusal.value), false;
      }
      RegIn(regs, doc, shown, ns);
      r, notified := Write(ns, section, persist);
    }

    /** A freshly read document. The first one moves no revision, so a token taken before it survives a
        changed section; every later one moves exactly the revisions of the sections it changed. All
        namespaces are resolved again and those whose value changed are notified. */
    method LoadDocument(next: Document) returns (notified: set<string>)
      requires Valid()
      modifies this`regs, this`doc, this`pub, this`docLoaded, this`shown
      ensures Valid() && docLoaded && doc == next && regs.Keys == old(regs).Keys == shown.Keys == old(shown).Keys
      ensures forall ns <- regs.Keys ::
                RegLoaded(old(regs)[ns], regs[ns], old(shown)[ns], shown[ns], old(doc), doc, ns, !old(docLoaded))
      ensures notified <= regs.Keys && forall ns <- regs.Keys :: ns in notified <==>
              regs[ns].resolved != old(regs)[ns].resolved
    {
      hide RegsOk, Reregistered, RegLoaded, Shown, ShownAll, Bumped, Reresolved, Raw;
      var before := doc;
      var first := !docLoaded;
      ghost var regs0, shown0 := regs, shown;
      docLoaded := true;
      doc := next;
      pub := doc;
      if !first {
        BumpChanged(before);
      }
      ghost var bumped := regs;
      notified := ReloadLocked();
      AllReregistered(regs0, bumped, regs, before, next, first);
      RegsLoaded(regs0, regs, shown0, before, next, first);
      shown := ShownAll(shown0, before, next, first);
    }

    /** Every registered namespace whose raw section changed gets its revision advanced. */
    method BumpChanged(before: Document)
      modifies this`regs
      ensures regs.Keys == old(regs).Keys && forall ns <- regs.Keys :: regs[ns] == Bumped(old(regs)[ns], before, doc, ns)
    {
      hide Bumped, DeepEqual;
      var todo := regs.Keys;
      while todo != {}
        invariant todo <= regs.Keys == old(regs).Keys
        invariant forall ns <- regs.Keys :: regs[ns] == if ns in todo then old(regs)[ns] else Bumped(old(regs)[ns], before, doc, ns)
        decreases |todo|
      {
        var ns :| ns in todo;
        todo := todo - {ns};
        var reg := BumpOne(regs[ns], before, doc, ns);
        regs := regs[ns := reg];
      }
    }

    static method BumpOne(reg: Registration, before: Document, doc: Document, ns: string) returns (out: Registration)
      ensures out == Bumped(reg, before, doc, ns)
    {
      DeepEqualIff(Raw(before, ns), Raw(doc, ns));
      out := if !DeepEqual(Raw(before, ns), Raw(doc, ns)) then reg.(revision := reg.revision + 1) else reg;
    }

    /** Resolves every namespace against the document; those whose value changed are notified. */
    method ReloadLocked() returns (notified: set<string>)
      modifies this`regs
      ensures regs.Keys == old(regs).Keys && notified <= regs.Keys
      ensures forall ns <- regs.Keys :: regs[ns] == Reresolved(old(regs)[ns], doc, ns)
      ensures forall ns <- regs.Keys :: ns in notified <==> regs[ns].resolved != old(regs)[ns].resolved
    {
      hide Reresolved;
      notified := {};
      var todo := regs.Keys;
      while todo != {}
        invariant todo <= regs.Keys == old(regs).Keys && notified <= regs.Keys - todo
        invariant forall ns <- regs.Keys :: regs[ns] == if ns in todo then old(regs)[ns] else Reresolved(old(regs)[ns], doc, ns)
        invariant forall ns <- regs.Keys :: ns !in todo ==> (ns in notified <==> regs[ns].resolved != old(regs)[ns].resolved)
        decreases |todo|
      {
        var ns :| ns in todo;
        todo := todo - {ns};
        var reg, changed := ReloadOne(regs[ns], doc, ns);
        regs := regs[ns := reg];
        if changed {
          notified := notified + {ns};
        }
      }
    }

    static method ReloadOne(reg: Registration, doc: Document, ns: string) returns (out: Registration, changed: bool)
      ensures out == Reresolved(reg, doc, ns) && (changed <==> out.resolved != reg.resolved)
    {
      hide Resolve, Merge, Defaults, DeepEqual;
      var next := ResolveLayers(reg.schema, reg.base, SectionOf(doc, ns));
      DeepEqualIff(Obj(reg.resolved), Obj(next));
      changed := !DeepEqual(Obj(reg.resolved), Obj(next));
      out := if changed then reg.(resolved := next) else reg;
    }
  }

  function Bumped(reg: Registration, before: Document, doc: Document, ns: string): Registration {
    if Raw(before, ns) != Raw(doc, ns) then reg.(revision := reg.revision + 1) else reg
  }

  function Reresolved(reg: Registration, doc: Document, ns: string): Registration {
    reg.(resolved := Resolve(reg.schema, reg.base, SectionOf(doc, ns)))
  }

  /** The sections shown so far, once a document was loaded: the first load rewrites the last of them. */
  ghost function Shown(shown: seq<Json>, before: Json, after: Json, first: bool): seq<Json>
    requires shown != []
  {
    if before == after then shown
    else if first then shown[..|shown| - 1] + [after]
    else shown + [after]
  }

  function Reregistered(reg: Registration, before: Document, doc: Document, ns: string, first: bool): Registration {
    Reresolved(if first then reg else Bumped(reg, before, doc, ns), doc, ns)
  }

  lemma ReregisteredIs(reg: Registration, bumped: Registration, before: Document, doc: Document, ns: string, first: bool)
    requires bumped == if first then reg else Bumped(reg, before, doc, ns)
    ensures Reregistered(reg, before, doc, ns, first) == Reresolved(bumped, doc, ns)
    ensures bumped.resolved == reg.resolved
  {
    hide Reresolved;
  }

  lemma AllReregistered(regs0: map<string, Registration>, bumped: map<string, Registration>, regs: map<string, Registration>,
                        before: Document, doc: Document, first: bool)
    requires regs0.Keys == bumped.Keys == regs.Keys
    requires forall ns <- regs.Keys :: bumped[ns] == if first then regs0[ns] else Bumped(regs0[ns], before, doc, ns)
    requires forall ns <- regs.Keys :: regs[ns] == Reresolved(bumped[ns], doc, ns)
    ensures forall ns <- regs.Keys :: regs[ns] == Reregistered(regs0[ns], before, doc, ns, first)
    ensures forall ns <- regs.Keys :: bumped[ns].resolved == regs0[ns].resolved
  {
    hide Reresolved, Reregistered, Bumped;
    forall ns <- regs.Keys
      ensures regs[ns] == Reregistered(regs0[ns], before, doc, ns, first) && bumped[ns].resolved == regs0[ns].resolved
    {
      ReregisteredIs(regs0[ns], bumped[ns], before, doc, ns, first);
    }
  }

  ghost function ShownAll(shown: map<string, seq<Json>>, before: Document, doc: Document,
                          first: bool): map<string, seq<Json>> {
    map ns | ns in shown :: if shown[ns] == [] then [] else Shown(shown[ns], Raw(before, ns), Raw(doc, ns), first)
  }

  /** What one load does to one registration: after the first load the revision moves exactly when the raw
      section changed; and what readers of the old revisions saw still stands, except when the first load
      changed the section. */
  ghost predicate RegLoaded(reg0: Registration, reg: Registration, shown0: seq<Json>, shown: seq<Json>, before: Document,
                            doc: Document, ns: string, first: bool)
  {
    && reg.revision == reg0.revision + (if !first && Raw(before, ns) != Raw(doc, ns) then 1 else 0)
    && (shown0 <= shown <==> !first || Raw(before, ns) == Raw(doc, ns))
  }

  lemma LoadOne(reg: Registration, shown: seq<Json>, before: Document, doc: Document, ns: string, first: bool)
    requires RegOk(reg, before, ns, shown)
    ensures shown != []
    ensures var shown' := Shown(shown, Raw(before, ns), Raw(doc, ns), first);
            var reg' := Reregistered(reg, before, doc, ns, first);
            RegOk(reg', doc, ns, shown') && RegLoaded(reg, reg', shown, shown', before, doc, ns, first)
  {
    hide Resolve;
    ShownPrefix(shown, Raw(before, ns), Raw(doc, ns), first);
  }

  lemma RegsLoaded(regs0: map<string, Registration>, regs: map<string, Registration>, shown: map<string, seq<Json>>,
                   before: Document, doc: Document, first: bool)
    requires RegsOk(regs0, before, shown) && regs.Keys == regs0.Keys
    requires forall ns <- regs.Keys :: regs[ns] == Reregistered(regs0[ns], before, doc, ns, first)
    ensures regs.Keys == shown.Keys == ShownAll(shown, before, doc, first).Keys
    ensures RegsOk(regs, doc, ShownAll(shown, before, doc, first))
    ensures forall ns <- regs.Keys :: RegLoaded(regs0[ns], regs[ns], shown[ns], ShownAll(shown, before, doc, first)[ns], before, doc, ns, first)
  {
    hide RegOk, Reregistered, RegLoaded, Shown;
    forall ns <- regs.Keys
      ensures RegOk(regs[ns], doc, ns, ShownAll(shown, before, doc, first)[ns])
      ensures RegLoaded(regs0[ns], regs[ns], shown[ns], ShownAll(shown, before, doc, first)[ns], before, doc, ns, first)
    {
      LoadOne(regs0[ns], shown[ns], before, doc, ns, first);
    }
  }

  lemma ShownPrefix(shown: seq<Json>, before: Json, after: Json, first: bool)
    requires shown != [] && shown[|shown| - 1] == before
    ensures shown <= Shown(shown, before, after, first) <==> !first || before == after
  {
  }
}
