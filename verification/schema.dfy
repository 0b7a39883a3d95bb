/** The JSON Schema subset used at both sides of the provider boundary: an
    inspection that bounds depth and size, and a matcher with a depth cutoff. */
module SchemaValidator {
  import opened Common
  import opened Json

  const MAX_SCHEMA_DEPTH := 20
  const MAX_SCHEMA_NODES := 1000
  const SUPPORTED_KEYWORDS := {
    "$schema", "$id", "title", "description", "type", "const", "enum", "properties", "required",
    "additionalProperties", "items", "minItems", "maxItems", "minLength", "maxLength", "minimum", "maximum",
    "allOf", "anyOf", "oneOf"
  }
  const SUPPORTED_TYPES := {"object", "array", "string", "number", "integer", "boolean", "null"}

  /** A property read on a raw schema value. */
  function Property(schema: Json, key: string): (r: Option<Json>)
    ensures r.Some? ==> r.value < schema
  {
    if schema.Obj? then Get(schema.fields, key) else None
  }

  /** The type name is compared after JavaScript's string conversion, so null
      reads as "null" and a one-element array as its element. */
  predicate SupportedType(v: Json) {
    match v
    case Str(s) => s in SUPPORTED_TYPES
    case Null => true
    case Arr(xs) => |xs| == 1 && !xs[0].Null? && SupportedType(xs[0])
    case _ => false
  }

  /** The subschemas under `properties`, `items` and one combinator. */
  function PropertyChildren(schema: Json): (r: seq<Json>)
    ensures forall i :: 0 <= i < |r| ==> r[i] < schema
  {
    match Property(schema, "properties")
    case Some(Obj(fs)) => seq(|fs|, i requires 0 <= i < |fs| => fs[i].value)
    case _ => []
  }

  function ItemsChildren(schema: Json): (r: seq<Json>)
    ensures forall i :: 0 <= i < |r| ==> r[i] < schema
  {
    match Property(schema, "items")
    case Some(child) => [child]
    case None => []
  }

  function CombinatorChildren(schema: Json, combinator: string): (r: seq<Json>)
    ensures forall i :: 0 <= i < |r| ==> r[i] < schema
  {
    match Property(schema, combinator)
    case Some(Arr(xs)) => xs
    case _ => []
  }

  /** Every subschema, in the order the inspection visits them. */
  function Children(schema: Json): (r: seq<Json>)
    ensures forall c :: c in r ==> c < schema
  {
    PropertyChildren(schema) + ItemsChildren(schema) + CombinatorChildren(schema, "allOf")
    + CombinatorChildren(schema, "anyOf") + CombinatorChildren(schema, "oneOf")
  }

  predicate CombinatorOk(schema: Json, combinator: string) {
    match Property(schema, combinator)
    case None => true
    case Some(Arr(xs)) => xs != []
    case _ => false
  }

  predicate RequiredOk(schema: Json) {
    match Property(schema, "required")
    case None => true
    case Some(Arr(xs)) => forall i :: 0 <= i < |xs| ==> xs[i].Str?
    case _ => false
  }

  /** What the inspection asks of one node, apart from its size. */
  predicate NodeOk(schema: Json) {
    && schema.Obj?
    && (forall i :: 0 <= i < |schema.fields| ==> schema.fields[i].key in SUPPORTED_KEYWORDS)
    && (Property(schema, "type").Some? ==> SupportedType(Property(schema, "type").value))
    && RequiredOk(schema)
    && (Property(schema, "additionalProperties").Some? ==> Property(schema, "additionalProperties").value.Bool?)
    && (Property(schema, "properties").Some? ==> Property(schema, "properties").value.Obj?)
    && CombinatorOk(schema, "allOf") && CombinatorOk(schema, "anyOf") && CombinatorOk(schema, "oneOf")
  }

  /** A value inside `depth` one-element arrays. */
  function Nested(depth: nat, v: Json): Json {
    if depth == 0 then v else Arr([Nested(depth - 1, v)])
  }

  ghost predicate NestsType(v: Json, depth: nat, s: string) {
    s in {"object", "array", "string", "number", "integer", "boolean", "null"} && v == Nested(depth, Str(s))
  }

  /** The types that pass: null, and the name of a type inside any number of one-element arrays. */
  lemma {:induction false} SupportedTypeMeans(v: Json)
    ensures SupportedType(v) <==> v.Null? || exists depth: nat, s: string :: NestsType(v, depth, s)
  {
    match v
    case Str(s) =>
      assert SupportedType(v) ==> NestsType(v, 0, s);
    case Arr(xs) =>
      if |xs| == 1 {
        SupportedTypeMeans(xs[0]);
        if depth: nat, s: string :| NestsType(xs[0], depth, s) { assert NestsType(v, depth + 1, s); }
      }
      if depth: nat, s: string :| NestsType(v, depth, s) { assert NestsType(xs[0], depth - 1, s); }
    case _ =>
  }

  predicate Known(keyword: string) {
    || keyword == "$schema" || keyword == "$id" || keyword == "title" || keyword == "description"
    || keyword == "type" || keyword == "const" || keyword == "enum"
    || keyword == "properties" || keyword == "required" || keyword == "additionalProperties"
    || keyword == "items" || keyword == "minItems" || keyword == "maxItems"
    || keyword == "minLength" || keyword == "maxLength" || keyword == "minimum" || keyword == "maximum"
    || keyword == "allOf" || keyword == "anyOf" || keyword == "oneOf"
  }

  /** A schema node that is fine, keyword by keyword. */
  lemma NodeMeans(schema: Json)
    ensures NodeOk(schema) <==>
      && schema.Obj? && (forall f :: f in schema.fields ==> Known(f.key))
      && (forall t :: Property(schema, "type") == Some(t) ==>
            t.Null? || exists depth: nat, s: string :: NestsType(t, depth, s))
      && (forall r :: Property(schema, "required") == Some(r) ==> r.Arr? && forall x :: x in r.items ==> x.Str?)
      && (forall a :: Property(schema, "additionalProperties") == Some(a) ==> a.Bool?)
      && (forall p :: Property(schema, "properties") == Some(p) ==> p.Obj?)
      && (forall c :: Property(schema, "allOf") == Some(c) ==> c.Arr? && c.items != [])
      && (forall c :: Property(schema, "anyOf") == Some(c) ==> c.Arr? && c.items != [])
      && (forall c :: Property(schema, "oneOf") == Some(c) ==> c.Arr? && c.items != [])
  {
    if schema.Obj? {
      hide SupportedType, NestsType, Property, Known, RequiredOk, CombinatorOk;
      TypeMeans(schema);
      KeywordsMean(schema);
      RequiredMeans(schema);
      CombinatorMeans(schema, "allOf");
      CombinatorMeans(schema, "anyOf");
      CombinatorMeans(schema, "oneOf");
    }
  }

  lemma TypeMeans(schema: Json)
    ensures (Property(schema, "type").Some? ==> SupportedType(Property(schema, "type").value)) <==>
      forall t :: Property(schema, "type") == Some(t) ==>
        t.Null? || exists depth: nat, s: string :: NestsType(t, depth, s)
  {
    hide SupportedType, NestsType;
    if Property(schema, "type").Some? { SupportedTypeMeans(Property(schema, "type").value); }
  }

  lemma CombinatorMeans(schema: Json, key: string)
    ensures CombinatorOk(schema, key) <==> forall c :: Property(schema, key) == Some(c) ==> c.Arr? && c.items != []
  {
    hide Property;
  }

  lemma KeywordsMean(schema: Json)
    requires schema.Obj?
    ensures (forall i :: 0 <= i < |schema.fields| ==> schema.fields[i].key in SUPPORTED_KEYWORDS) <==>
      forall f :: f in schema.fields ==> Known(f.key)
  {
    forall key ensures key in SUPPORTED_KEYWORDS <==> Known(key) { }
    hide Known;
  }

  lemma RequiredMeans(schema: Json)
    ensures RequiredOk(schema) <==>
      forall r :: Property(schema, "required") == Some(r) ==> r.Arr? && forall x :: x in r.items ==> x.Str?
  {
    hide Get;
  }

  /** What hangs below a schema: the schemas of its properties, of its items and of its three
      combinators, and nothing else. */
  lemma ChildrenMean(schema: Json, c: Json)
    ensures c in Children(schema) <==>
      || (exists fs, f: Field :: Property(schema, "properties") == Some(Obj(fs)) && f in fs && f.value == c)
      || Property(schema, "items") == Some(c)
      || (exists key, cs :: key in {"allOf", "anyOf", "oneOf"} && Property(schema, key) == Some(Arr(cs)) && c in cs)
  {
    hide Property;
    PropertyChildrenMean(schema, c);
    CombinatorChildrenMean(schema, "allOf", c);
    CombinatorChildrenMean(schema, "anyOf", c);
    CombinatorChildrenMean(schema, "oneOf", c);
    hide PropertyChildren, CombinatorChildren;
  }

  lemma PropertyChildrenMean(schema: Json, c: Json)
    ensures c in PropertyChildren(schema) <==>
      exists fs, f: Field :: Property(schema, "properties") == Some(Obj(fs)) && f in fs && f.value == c
  {
    hide Property;
    match Property(schema, "properties")
    case Some(Obj(fs)) =>
      if c in PropertyChildren(schema) {
        var i :| 0 <= i < |fs| && fs[i].value == c;
        assert fs[i] in fs;
      }
      if f :| f in fs && f.value == c {
        var i :| 0 <= i < |fs| && fs[i] == f;
        assert PropertyChildren(schema)[i] == c;
      }
    case _ =>
  }

  lemma CombinatorChildrenMean(schema: Json, key: string, c: Json)
    ensures c in CombinatorChildren(schema, key) <==>
      exists cs :: Property(schema, key) == Some(Arr(cs)) && c in cs
  {
    hide Property;
  }

  // ------------------------------------------------- the tree of subschemas

  /** A schema as a bare tree: is each node fine, and what hangs below it. */
  datatype Tree = Tree(ok: bool, kids: seq<Tree>)

  ghost function Shape(schema: Json): Tree
    decreases schema
  {
    var cs := Children(schema);
    Tree(NodeOk(schema), seq(|cs|, i requires 0 <= i < |cs| => assert cs[i] in cs; Shape(cs[i])))
  }

  ghost predicate AllOk(t: Tree) {
    t.ok && forall i :: 0 <= i < |t.kids| ==> AllOk(t.kids[i])
  }

  ghost function Nodes(t: Tree): nat
    decreases t, 1
  {
    1 + NodesIn(t.kids)
  }

  ghost function NodesIn(ts: seq<Tree>): nat
    decreases ts, 0
  {
    if ts == [] then 0 else NodesIn(ts[..|ts| - 1]) + Nodes(ts[|ts| - 1])
  }

  ghost function Height(t: Tree): nat
    decreases t, 1
  {
    HeightIn(t.kids)
  }

  ghost function HeightIn(ts: seq<Tree>): nat
    decreases ts, 0
  {
    if ts == [] then 0
    else
      var before, last := HeightIn(ts[..|ts| - 1]), 1 + Height(ts[|ts| - 1]);
      if before < last then last else before
  }

  lemma {:induction false} ChildBounds(ts: seq<Tree>, i: nat)
    requires i < |ts|
    ensures NodesIn(ts[..i]) + Nodes(ts[i]) <= NodesIn(ts)
    ensures 1 + Height(ts[i]) <= HeightIn(ts)
  {
    var front := ts[..|ts| - 1];
    if i < |front| {
      ChildBounds(front, i);
      assert front[..i] == ts[..i];
    }
  }

  // ------------------------------------------------------------- inspection

  datatype Refusal =
    | TooComplex | UnsupportedKeyword | UnsupportedType | InvalidRequired | InvalidAdditionalProperties
    | InvalidProperties | InvalidProperty | InvalidItems | InvalidCombinator(combinator: string)

  /** The counter threaded through one inspection. */
  class InspectionState {
    var nodes: nat

    constructor ()
      ensures nodes == 0
    {
      nodes := 0;
    }
  }

  /** The exact condition for acceptance of a tree met at some depth after some
      nodes have been counted. */
  ghost predicate Fits(t: Tree, depth: nat, before: nat) {
    AllOk(t) && depth + Height(t) <= MAX_SCHEMA_DEPTH && before + Nodes(t) <= MAX_SCHEMA_NODES
  }

  /** Accepted so far: the first `k` subtrees are fine and counted. */
  ghost predicate Progress(t: Tree, depth: nat, k: nat, before: nat, nodes: nat) {
    && k <= |t.kids|
    && (forall i :: 0 <= i < k ==> AllOk(t.kids[i]))
    && depth + HeightIn(t.kids[..k]) <= MAX_SCHEMA_DEPTH
    && nodes == before + 1 + NodesIn(t.kids[..k]) <= MAX_SCHEMA_NODES
  }

  /** A subtree that does not fit shows that the whole does not. */
  lemma BadChild(t: Tree, depth: nat, k: nat, before: nat, nodes: nat)
    requires Progress(t, depth, k, before, nodes)
    requires k < |t.kids| && !Fits(t.kids[k], depth + 1, nodes)
    ensures !Fits(t, depth, before)
  {
    ChildBounds(t.kids, k);
  }

  lemma NotAnObject(schema: Json, depth: nat, before: nat)
    requires !schema.Obj?
    ensures !Fits(Shape(schema), depth, before)
  {
    hide Children;
  }

  lemma GoodChild(t: Tree, depth: nat, k: nat, before: nat, nodes: nat)
    requires Progress(t, depth, k, before, nodes)
    requires k < |t.kids| && Fits(t.kids[k], depth + 1, nodes)
    ensures Progress(t, depth, k + 1, before, nodes + Nodes(t.kids[k]))
  {
    assert t.kids[..k + 1][..k] == t.kids[..k];
  }

  /** `cs` are the children whose trees start at position `from`. */
  ghost predicate Segment(t: Tree, from: nat, cs: seq<Json>) {
    from + |cs| <= |t.kids| && forall i :: 0 <= i < |cs| ==> t.kids[from + i] == Shape(cs[i])
  }

  lemma ShapeKids(schema: Json)
    ensures var t, cs := Shape(schema), Children(schema);
      && t.ok == NodeOk(schema) && |t.kids| == |cs| && forall i :: 0 <= i < |cs| ==> t.kids[i] == Shape(cs[i])
  {
    hide Children, NodeOk;
  }

  /** Where each group of children sits among the subtrees of a schema. */
  lemma Segments(schema: Json)
    ensures var t, p := Shape(schema), |PropertyChildren(schema)|;
      var q := p + |ItemsChildren(schema)|;
      var r := q + |CombinatorChildren(schema, "allOf")|;
      var s := r + |CombinatorChildren(schema, "anyOf")|;
      && Segment(t, 0, PropertyChildren(schema))
      && Segment(t, p, ItemsChildren(schema))
      && Segment(t, q, CombinatorChildren(schema, "allOf"))
      && Segment(t, r, CombinatorChildren(schema, "anyOf"))
      && Segment(t, s, CombinatorChildren(schema, "oneOf"))
      && |t.kids| == s + |CombinatorChildren(schema, "oneOf")|
  {
    ShapeKids(schema);
    hide Shape, PropertyChildren, ItemsChildren, CombinatorChildren;
    SegmentsOf(Shape(schema), Children(schema), PropertyChildren(schema), ItemsChildren(schema),
               CombinatorChildren(schema, "allOf"), CombinatorChildren(schema, "anyOf"),
               CombinatorChildren(schema, "oneOf"));
  }

  lemma SegmentsOf(t: Tree, cs: seq<Json>, a: seq<Json>, b: seq<Json>, c: seq<Json>, d: seq<Json>, e: seq<Json>)
    requires cs == a + b + c + d + e
    requires |t.kids| == |cs| && forall i :: 0 <= i < |cs| ==> t.kids[i] == Shape(cs[i])
    ensures Segment(t, 0, a) && Segment(t, |a|, b) && Segment(t, |a| + |b|, c)
    ensures Segment(t, |a| + |b| + |c|, d) && Segment(t, |a| + |b| + |c| + |d|, e)
  {
    hide Shape, Segment;
    SegmentAt(t, cs, [], a, b + c + d + e);
    SegmentAt(t, cs, a, b, c + d + e);
    SegmentAt(t, cs, a + b, c, d + e);
    SegmentAt(t, cs, a + b + c, d, e);
    SegmentAt(t, cs, a + b + c + d, e, []);
  }

  lemma SegmentAt(t: Tree, cs: seq<Json>, before: seq<Json>, mid: seq<Json>, after: seq<Json>)
    requires cs == before + mid + after
    requires |t.kids| == |cs| && forall i :: 0 <= i < |cs| ==> t.kids[i] == Shape(cs[i])
    ensures Segment(t, |before|, mid)
  {
    hide Shape;
    assert forall i :: 0 <= i < |mid| ==> cs[|before| + i] == mid[i];
  }

  lemma Start(t: Tree, depth: nat, before: nat)
    requires depth <= MAX_SCHEMA_DEPTH && before + 1 <= MAX_SCHEMA_NODES
    ensures Progress(t, depth, 0, before, before + 1)
  {
  }

  lemma Finish(t: Tree, depth: nat, before: nat, nodes: nat)
    requires t.ok && Progress(t, depth, |t.kids|, before, nodes)
    ensures Fits(t, depth, before) && nodes == before + Nodes(t)
  {
    assert t.kids[..|t.kids|] == t.kids;
  }

  method InspectSchema(schema: Json, depth: nat, state: InspectionState) returns (refusal: Option<Refusal>)
    requires schema.Obj?
    modifies state
    ensures refusal.None? <==> Fits(Shape(schema), depth, old(state.nodes))
    ensures refusal.None? ==> state.nodes == old(state.nodes) + Nodes(Shape(schema))
    decreases schema, 1
  {
    ShapeKids(schema);
    Segments(schema);
    hide Shape, Children, NodeOk, PropertyChildren, ItemsChildren, CombinatorChildren, CombinatorOk, Segment, Progress;
    ghost var before, t := state.nodes, Shape(schema);
    state.nodes := state.nodes + 1;
    if depth > MAX_SCHEMA_DEPTH || state.nodes > MAX_SCHEMA_NODES { return Some(TooComplex); }
    Start(t, depth, before);
    refusal := InspectKeywords(schema);
    if refusal.Some? { return; }
    var properties, items := PropertyChildren(schema), ItemsChildren(schema);
    refusal := InspectChildren(schema, t, 0, properties, depth, state, InvalidProperty, before);
    if refusal.Some? { return; }
    refusal := InspectChildren(schema, t, |properties|, items, depth, state, InvalidItems, before);
    if refusal.Some? { return; }
    var next := |properties| + |items|;
    refusal, next := InspectCombinator(schema, t, next, "allOf", depth, state, before);
    if refusal.Some? { return; }
    refusal, next := InspectCombinator(schema, t, next, "anyOf", depth, state, before);
    if refusal.Some? { return; }
    refusal, next := InspectCombinator(schema, t, next, "oneOf", depth, state, before);
    if refusal.None? { Finish(t, depth, before, state.nodes); }
  }

  /** The checks on one node that come before its children are visited. */
  method InspectKeywords(schema: Json) returns (refusal: Option<Refusal>)
    requires schema.Obj?
    ensures refusal.Some? ==> !NodeOk(schema)
    ensures refusal.None? && CombinatorOk(schema, "allOf") && CombinatorOk(schema, "anyOf")
      && CombinatorOk(schema, "oneOf")
      ==> NodeOk(schema)
    ensures match refusal
      case None => true
      case Some(UnsupportedKeyword) => exists f :: f in schema.fields && !Known(f.key)
      case Some(UnsupportedType) =>
        exists t :: Property(schema, "type") == Some(t) && !t.Null?
          && forall depth: nat, s: string :: !NestsType(t, depth, s)
      case Some(InvalidRequired) =>
        exists r :: Property(schema, "required") == Some(r) && (r.Arr? ==> exists x :: x in r.items && !x.Str?)
      case Some(InvalidAdditionalProperties) =>
        exists a :: Property(schema, "additionalProperties") == Some(a) && !a.Bool?
      case Some(InvalidProperties) => exists p :: Property(schema, "properties") == Some(p) && !p.Obj?
      case Some(_) => false
  {
    hide SupportedType, NestsType, Property, Known, RequiredOk, CombinatorOk;
    TypeMeans(schema);
    KeywordsMean(schema);
    RequiredMeans(schema);
    for i := 0 to |schema.fields|
      invariant forall j :: 0 <= j < i ==> schema.fields[j].key in SUPPORTED_KEYWORDS
    {
      if schema.fields[i].key !in SUPPORTED_KEYWORDS { return Some(UnsupportedKeyword); }
    }
    var kind := Property(schema, "type");
    if kind.Some? && !SupportedType(kind.value) { return Some(UnsupportedType); }
    if !RequiredOk(schema) { return Some(InvalidRequired); }
    var additional := Property(schema, "additionalProperties");
    if additional.Some? && !additional.value.Bool? { return Some(InvalidAdditionalProperties); }
    var properties := Property(schema, "properties");
    if properties.Some? && !properties.value.Obj? { return Some(InvalidProperties); }
    return None;
  }

  method InspectCombinator(schema: Json, ghost t: Tree, from: nat, combinator: string, depth: nat,
                           state: InspectionState, ghost before: nat)
    returns (refusal: Option<Refusal>, next: nat)
    requires t == Shape(schema) && combinator in {"allOf", "anyOf", "oneOf"}
    requires Progress(t, depth, from, before, state.nodes) && Segment(t, from, CombinatorChildren(schema, combinator))
    modifies state
    ensures next == from + |CombinatorChildren(schema, combinator)|
    ensures refusal.None? ==> CombinatorOk(schema, combinator) && Progress(t, depth, next, before, state.nodes)
    ensures refusal.Some? ==> !Fits(t, depth, before)
    decreases schema, 0, 1
  {
    ShapeKids(schema);
    hide Shape, Children, CombinatorChildren, Property;
    next := from + |CombinatorChildren(schema, combinator)|;
    if !CombinatorOk(schema, combinator) {
      assert !NodeOk(schema);
      return Some(InvalidCombinator(combinator)), next;
    }
    refusal := InspectChildren(schema, t, from, CombinatorChildren(schema, combinator), depth, state,
                               InvalidCombinator(combinator), before);
  }

  method InspectChildren(ghost schema: Json, ghost t: Tree, ghost from: nat, cs: seq<Json>, depth: nat,
                         state: InspectionState, otherwise: Refusal, ghost before: nat)
    returns (refusal: Option<Refusal>)
    requires forall i :: 0 <= i < |cs| ==> cs[i] < schema
    requires Progress(t, depth, from, before, state.nodes) && Segment(t, from, cs)
    modifies state
    ensures refusal.None? ==> Progress(t, depth, from + |cs|, before, state.nodes)
    ensures refusal.Some? ==> !Fits(t, depth, before)
    decreases schema, 0, 0
  {
    hide Shape, Progress, Fits, Nodes;
    for k := 0 to |cs|
      invariant Progress(t, depth, from + k, before, state.nodes)
    {
      ghost var nodes := state.nodes;
      assert t.kids[from + k] == Shape(cs[k]);
      if !cs[k].Obj? {
        NotAnObject(cs[k], depth + 1, nodes);
        BadChild(t, depth, from + k, before, nodes);
        return Some(otherwise);
      }
      refusal := InspectSchema(cs[k], depth + 1, state);
      if refusal.Some? {
        BadChild(t, depth, from + k, before, nodes);
        return;
      }
      GoodChild(t, depth, from + k, before, nodes);
    }
    return None;
  }

  /** Supported, said without any traversal order or counter. */
  ghost predicate Supported(schema: Json) {
    var t := Shape(schema);
    AllOk(t) && Height(t) <= MAX_SCHEMA_DEPTH && Nodes(t) <= MAX_SCHEMA_NODES
  }

  /** `assertSupported` accepts exactly the trees of fine nodes with height at
      most 20 and at most 1000 nodes. */
  method AssertSupported(schema: Json) returns (refusal: Option<Refusal>)
    requires schema.Obj?
    ensures refusal.None? <==> Supported(schema)
  {
    var state := new InspectionState();
    refusal := InspectSchema(schema, 0, state);
  }

  // --------------------------------------------------------------- matching

  /** The matcher. `cutoff` is the depth beyond which it gives up; without one
      the same clauses define the unbounded meaning of a schema. */
  predicate Matches(cutoff: Option<nat>, schema: Json, value: Json, depth: nat)
    decreases schema, 2
  {
    && !(cutoff.Some? && depth > cutoff.value)
    && ConstAndEnum(schema, value)
    && false !in Verdicts(cutoff, schema, "allOf", value, depth + 1)
    && (CombinatorPresent(schema, "anyOf") ==> true in Verdicts(cutoff, schema, "anyOf", value, depth + 1))
    && (CombinatorPresent(schema, "oneOf") ==> HowManyTrue(Verdicts(cutoff, schema, "oneOf", value, depth + 1)) == 1)
    && TypeOk(cutoff, schema, value, depth + 1)
  }

  /** What the matcher asks for the type a schema names, if it names one. */
  predicate TypeOk(cutoff: Option<nat>, schema: Json, value: Json, depth: nat)
    decreases schema, 1
  {
    match Property(schema, "type")
    case Some(Str("array")) =>
      value.Arr? && SizeInRange(schema, "minItems", "maxItems", |value.items|) && Items(cutoff, schema, value, depth)
    case Some(Str("object")) =>
      value.Obj? && RequiredPresent(schema, value) && Members(cutoff, schema, value, depth)
        && NoOtherKeys(schema, value)
    case Some(Str(t)) => ScalarOk(schema, t, value)
    case _ => true
  }

  predicate CombinatorPresent(schema: Json, combinator: string) {
    Property(schema, combinator).Some? && Property(schema, combinator).value.Arr?
  }

  /** What the matcher says of each child under a combinator. */
  function Verdicts(cutoff: Option<nat>, schema: Json, combinator: string, value: Json, depth: nat): seq<bool>
    decreases schema, 0
  {
    var cs := CombinatorChildren(schema, combinator);
    seq(|cs|, i requires 0 <= i < |cs| => Matches(cutoff, cs[i], value, depth))
  }

  function HowManyTrue(verdicts: seq<bool>): nat {
    if verdicts == [] then 0 else (if verdicts[0] then 1 else 0) + HowManyTrue(verdicts[1..])
  }

  predicate Items(cutoff: Option<nat>, schema: Json, value: Json, depth: nat)
    requires value.Arr?
    decreases schema, 0
  {
    match Property(schema, "items")
    case Some(Obj(fs)) => forall i :: 0 <= i < |value.items| ==> Matches(cutoff, Obj(fs), value.items[i], depth)
    case _ => true
  }

  predicate Members(cutoff: Option<nat>, schema: Json, value: Json, depth: nat)
    requires value.Obj?
    decreases schema, 0
  {
    match Property(schema, "properties")
    case Some(Obj(ps)) =>
      forall i :: 0 <= i < |ps| && Get(value.fields, ps[i].key).Some? ==>
        Matches(cutoff, ps[i].value, Get(value.fields, ps[i].key).value, depth)
    case _ => true
  }

  predicate ConstAndEnum(schema: Json, value: Json) {
    && (Property(schema, "const").Some? ==> DeepEqual(Property(schema, "const").value, value))
    && (match Property(schema, "enum")
        case Some(Arr(xs)) => exists i :: 0 <= i < |xs| && DeepEqual(xs[i], value)
        case _ => true)
  }

  predicate ScalarOk(schema: Json, t: string, value: Json) {
    match t
    case "null" => value.Null?
    case "boolean" => value.Bool?
    case "number" => NumberInRange(schema, value)
    case "integer" => NumberInRange(schema, value) && value.n == value.n.Floor as real
    case "string" => value.Str? && SizeInRange(schema, "minLength", "maxLength", |value.s|)
    case _ => true
  }

  predicate NumberInRange(schema: Json, value: Json) {
    && value.Num?
    && (match Property(schema, "minimum") case Some(Num(m)) => value.n >= m case _ => true)
    && (match Property(schema, "maximum") case Some(Num(m)) => value.n <= m case _ => true)
  }

  predicate SizeInRange(schema: Json, low: string, high: string, size: nat) {
    && (match Property(schema, low) case Some(Num(m)) => size as real >= m case _ => true)
    && (match Property(schema, high) case Some(Num(m)) => size as real <= m case _ => true)
  }

  predicate RequiredPresent(schema: Json, value: Json)
    requires value.Obj?
  {
    match Property(schema, "required")
    case Some(Arr(rs)) => forall i :: 0 <= i < |rs| && rs[i].Str? ==> Get(value.fields, rs[i].s).Some?
    case _ => true
  }

  predicate NoOtherKeys(schema: Json, value: Json)
    requires value.Obj?
  {
    var properties := match Property(schema, "properties") case Some(Obj(ps)) => ps case _ => [];
    Property(schema, "additionalProperties") == Some(Bool(false)) ==>
      forall i :: 0 <= i < |value.fields| ==> Get(properties, value.fields[i].key).Some?
  }

  // ---------------------------------------------------- what a schema means

  predicate HasType(schema: Json, name: string) { Property(schema, "type") == Some(Str(name)) }

  /** A numeric keyword, where there is one, is a lower or an upper bound of `x`. */
  ghost predicate AtLeast(schema: Json, keyword: string, x: real) {
    forall m :: Property(schema, keyword) == Some(Num(m)) ==> m <= x
  }

  ghost predicate AtMost(schema: Json, keyword: string, x: real) {
    forall m :: Property(schema, keyword) == Some(Num(m)) ==> x <= m
  }

  predicate Equals(x: real, whole: int) { x == whole as real }

  /** The meaning of a schema without depth or cutoff, clause by clause: every one of `allOf`,
      some of `anyOf`, exactly one of `oneOf`, and what the type asks for. */
  ghost predicate Satisfies(schema: Json, value: Json)
    decreases schema, 2
  {
    && (forall c :: Property(schema, "const") == Some(c) ==> DeepEqual(c, value))
    && (forall cs :: Property(schema, "enum") == Some(Arr(cs)) ==>
          exists i :: 0 <= i < |cs| && DeepEqual(cs[i], value))
    && AllSatisfy(schema, value) && AnySatisfies(schema, value) && OneSatisfies(schema, value)
    && TypeSatisfied(schema, value)
  }

  ghost predicate TypeSatisfied(schema: Json, value: Json)
    decreases schema, 1
  {
    && (HasType(schema, "null") ==> value.Null?)
    && (HasType(schema, "boolean") ==> value.Bool?)
    && (HasType(schema, "number") || HasType(schema, "integer") ==>
          value.Num? && AtLeast(schema, "minimum", value.n) && AtMost(schema, "maximum", value.n))
    && (HasType(schema, "integer") ==> value.Num? && exists whole: int :: Equals(value.n, whole))
    && (HasType(schema, "string") ==>
          && value.Str?
          && AtLeast(schema, "minLength", |value.s| as real) && AtMost(schema, "maxLength", |value.s| as real))
    && (HasType(schema, "array") ==>
          && value.Arr?
          && AtLeast(schema, "minItems", |value.items| as real) && AtMost(schema, "maxItems", |value.items| as real)
          && ItemsSatisfy(schema, value))
    && (HasType(schema, "object") ==> value.Obj? && MembersSatisfy(schema, value) && KeysFit(schema, value))
  }

  ghost predicate AllSatisfy(schema: Json, value: Json)
    decreases schema, 0
  {
    match Property(schema, "allOf")
    case Some(Arr(cs)) => forall i :: 0 <= i < |cs| ==> Satisfies(cs[i], value)
    case _ => true
  }

  ghost predicate AnySatisfies(schema: Json, value: Json)
    decreases schema, 0
  {
    match Property(schema, "anyOf")
    case Some(Arr(cs)) => exists i :: 0 <= i < |cs| && Satisfies(cs[i], value)
    case _ => true
  }

  ghost predicate OneSatisfies(schema: Json, value: Json)
    decreases schema, 0
  {
    match Property(schema, "oneOf")
    case Some(Arr(cs)) =>
      && (exists i :: 0 <= i < |cs| && Satisfies(cs[i], value))
      && (forall i, j :: 0 <= i < j < |cs| ==> !(Satisfies(cs[i], value) && Satisfies(cs[j], value)))
    case _ => true
  }

  ghost predicate ItemsSatisfy(schema: Json, value: Json)
    requires value.Arr?
    decreases schema, 0
  {
    Property(schema, "items").Some? && Property(schema, "items").value.Obj? ==>
      forall i :: 0 <= i < |value.items| ==> Satisfies(Property(schema, "items").value, value.items[i])
  }

  ghost predicate MembersSatisfy(schema: Json, value: Json)
    requires value.Obj?
    decreases schema, 0
  {
    match Property(schema, "properties")
    case Some(Obj(ps)) =>
      forall i :: 0 <= i < |ps| && Get(value.fields, ps[i].key).Some? ==>
        Satisfies(ps[i].value, Get(value.fields, ps[i].key).value)
    case _ => true
  }

  ghost predicate HasKey(fs: seq<Field>, key: string) { exists i :: 0 <= i < |fs| && fs[i].key == key }

  /** Every required key is there, and where additional properties are forbidden there is no
      key that `properties` does not name. */
  ghost predicate KeysFit(schema: Json, value: Json)
    requires value.Obj?
  {
    && (match Property(schema, "required")
        case Some(Arr(rs)) => forall i :: 0 <= i < |rs| && rs[i].Str? ==> HasKey(value.fields, rs[i].s)
        case _ => true)
    && (Property(schema, "additionalProperties") == Some(Bool(false)) ==>
          forall i :: 0 <= i < |value.fields| ==>
            Declared(schema, value.fields[i].key))
  }

  ghost predicate Declared(schema: Json, key: string) {
    match Property(schema, "properties")
    case Some(Obj(ps)) => HasKey(ps, key)
    case _ => false
  }

  lemma HasKeyMeans(fs: seq<Field>, key: string)
    ensures Get(fs, key).Some? <==> HasKey(fs, key)
  {
  }

  lemma RequiredKeysMean(schema: Json, value: Json)
    requires value.Obj?
    ensures RequiredPresent(schema, value) <==>
      match Property(schema, "required")
      case Some(Arr(rs)) => forall i :: 0 <= i < |rs| && rs[i].Str? ==> HasKey(value.fields, rs[i].s)
      case _ => true
  {
    hide Get, HasKey, Property;
    forall key ensures Get(value.fields, key).Some? <==> HasKey(value.fields, key) { HasKeyMeans(value.fields, key); }
  }

  lemma DeclaredMeans(schema: Json, key: string)
    ensures var properties := match Property(schema, "properties") case Some(Obj(ps)) => ps case _ => [];
      Get(properties, key).Some? <==> Declared(schema, key)
  {
    hide Property;
  }

  lemma OtherKeysMean(schema: Json, value: Json)
    requires value.Obj?
    ensures NoOtherKeys(schema, value) <==>
      (Property(schema, "additionalProperties") == Some(Bool(false)) ==>
        forall i :: 0 <= i < |value.fields| ==> Declared(schema, value.fields[i].key))
  {
    hide Get, Declared, Property;
    var properties := match Property(schema, "properties") case Some(Obj(ps)) => ps case _ => [];
    forall key ensures Get(properties, key).Some? <==> Declared(schema, key) { DeclaredMeans(schema, key); }
  }

  lemma KeysMean(schema: Json, value: Json)
    requires value.Obj?
    ensures RequiredPresent(schema, value) && NoOtherKeys(schema, value) <==> KeysFit(schema, value)
  {
    hide RequiredPresent, NoOtherKeys, HasKey, Declared, Property;
    RequiredKeysMean(schema, value);
    OtherKeysMean(schema, value);
  }

  ghost predicate OneTrue(verdicts: seq<bool>) {
    && (exists i :: 0 <= i < |verdicts| && verdicts[i])
    && (forall i, j :: 0 <= i < j < |verdicts| ==> !(verdicts[i] && verdicts[j]))
  }

  lemma {:induction false} NoneTrue(verdicts: seq<bool>)
    ensures HowManyTrue(verdicts) == 0 <==> forall j :: 0 <= j < |verdicts| ==> !verdicts[j]
  {
    if verdicts != [] {
      NoneTrue(verdicts[1..]);
      assert forall j :: 0 <= j < |verdicts[1..]| ==> verdicts[1..][j] == verdicts[j + 1];
      assert forall j :: 1 <= j < |verdicts| ==> verdicts[j] == verdicts[1..][j - 1];
    }
  }

  lemma {:induction false} ExactlyOneTrue(verdicts: seq<bool>)
    ensures HowManyTrue(verdicts) == 1 <==> OneTrue(verdicts)
  {
    if verdicts != [] {
      var rest := verdicts[1..];
      assert forall j :: 0 <= j < |rest| ==> rest[j] == verdicts[j + 1];
      assert forall j :: 1 <= j < |verdicts| ==> verdicts[j] == rest[j - 1];
      if verdicts[0] { NoneTrue(rest); } else { ExactlyOneTrue(rest); }
    }
  }

  /** Each combinator's verdicts, for children that are judged by what they mean. */
  lemma VerdictsMean(schema: Json, key: string, value: Json, depth: nat)
    requires var cs := CombinatorChildren(schema, key);
      forall i :: 0 <= i < |cs| ==> Matches(None, cs[i], value, depth) == Satisfies(cs[i], value)
    ensures var cs, verdicts := CombinatorChildren(schema, key), Verdicts(None, schema, key, value, depth);
      && |verdicts| == |cs| && (forall i :: 0 <= i < |cs| ==> verdicts[i] == Satisfies(cs[i], value))
  {
    hide Matches, Satisfies, CombinatorChildren;
  }

  lemma AllOfMeans(schema: Json, value: Json, depth: nat)
    requires var cs := CombinatorChildren(schema, "allOf");
      forall i :: 0 <= i < |cs| ==> Matches(None, cs[i], value, depth) == Satisfies(cs[i], value)
    ensures AllSatisfy(schema, value) <==>
      false !in Verdicts(None, schema, "allOf", value, depth)
  {
    VerdictsMean(schema, "allOf", value, depth);
    hide Verdicts, Matches, Satisfies, Property;
  }

  lemma AnyOfMeans(schema: Json, value: Json, depth: nat)
    requires var cs := CombinatorChildren(schema, "anyOf");
      forall i :: 0 <= i < |cs| ==> Matches(None, cs[i], value, depth) == Satisfies(cs[i], value)
    ensures AnySatisfies(schema, value) <==>
      (CombinatorPresent(schema, "anyOf") ==> true in Verdicts(None, schema, "anyOf", value, depth))
  {
    VerdictsMean(schema, "anyOf", value, depth);
    hide Verdicts, Matches, Satisfies, Property;
  }

  lemma OneOfMeans(schema: Json, value: Json, depth: nat)
    requires var cs := CombinatorChildren(schema, "oneOf");
      forall i :: 0 <= i < |cs| ==> Matches(None, cs[i], value, depth) == Satisfies(cs[i], value)
    ensures OneSatisfies(schema, value) <==>
      (CombinatorPresent(schema, "oneOf") ==> HowManyTrue(Verdicts(None, schema, "oneOf", value, depth)) == 1)
  {
    VerdictsMean(schema, "oneOf", value, depth);
    ExactlyOneTrue(Verdicts(None, schema, "oneOf", value, depth));
    hide Verdicts, Matches, Satisfies, HowManyTrue, Property;
  }

  lemma {:induction false} ItemsMean(schema: Json, value: Json, depth: nat)
    requires value.Arr?
    ensures Items(None, schema, value, depth) == ItemsSatisfy(schema, value)
    decreases schema, 0
  {
    hide Matches, Satisfies;
    match Property(schema, "items")
    case Some(Obj(fs)) =>
      forall i | 0 <= i < |value.items|
        ensures Matches(None, Obj(fs), value.items[i], depth) == Satisfies(Obj(fs), value.items[i])
      {
        MatchesMeans(Obj(fs), value.items[i], depth);
      }
    case _ =>
  }

  lemma {:induction false} MembersMean(schema: Json, value: Json, depth: nat)
    requires value.Obj?
    ensures Members(None, schema, value, depth) == MembersSatisfy(schema, value)
    decreases schema, 0
  {
    hide Matches, Satisfies;
    match Property(schema, "properties")
    case Some(Obj(ps)) =>
      forall i | 0 <= i < |ps| && Get(value.fields, ps[i].key).Some?
        ensures var v := Get(value.fields, ps[i].key).value;
          Matches(None, ps[i].value, v, depth) == Satisfies(ps[i].value, v)
      {
        MatchesMeans(ps[i].value, Get(value.fields, ps[i].key).value, depth);
      }
    case _ =>
  }

  lemma BoundsMean(schema: Json, low: string, high: string, size: nat)
    ensures SizeInRange(schema, low, high, size) <==>
      AtLeast(schema, low, size as real) && AtMost(schema, high, size as real)
  {
    hide Property;
  }

  lemma RangeMeans(schema: Json, value: Json)
    ensures NumberInRange(schema, value) <==>
      value.Num? && AtLeast(schema, "minimum", value.n) && AtMost(schema, "maximum", value.n)
    ensures value.Num? ==> (value.n == value.n.Floor as real <==> exists whole: int :: Equals(value.n, whole))
  {
    hide Property;
    if value.Num? && value.n == value.n.Floor as real { assert Equals(value.n, value.n.Floor); }
  }

  lemma ConstMeans(schema: Json, value: Json)
    ensures ConstAndEnum(schema, value) <==>
      && (forall c :: Property(schema, "const") == Some(c) ==> DeepEqual(c, value))
      && (forall cs :: Property(schema, "enum") == Some(Arr(cs)) ==>
            exists i :: 0 <= i < |cs| && DeepEqual(cs[i], value))
  {
    hide Property, DeepEqual;
  }

  /** The matcher without its cutoff decides what a schema means. */
  lemma {:induction false} MatchesMeans(schema: Json, value: Json, depth: nat)
    ensures Matches(None, schema, value, depth) == Satisfies(schema, value)
    decreases schema, 2
  {
    MatchesMeansBelow(schema, "allOf", value, depth + 1);
    MatchesMeansBelow(schema, "anyOf", value, depth + 1);
    MatchesMeansBelow(schema, "oneOf", value, depth + 1);
    hide CombinatorChildren, HasKey;
    AllOfMeans(schema, value, depth + 1);
    AnyOfMeans(schema, value, depth + 1);
    OneOfMeans(schema, value, depth + 1);
    if value.Arr? { ItemsMean(schema, value, depth + 1); }
    if value.Obj? { MembersMean(schema, value, depth + 1); }
    hide *;
    NodeMatchesMeans(schema, value, depth);
  }

  lemma NodeMatchesMeans(schema: Json, value: Json, depth: nat)
    requires AllSatisfy(schema, value) <==> false !in Verdicts(None, schema, "allOf", value, depth + 1)
    requires AnySatisfies(schema, value) <==>
      (CombinatorPresent(schema, "anyOf") ==> true in Verdicts(None, schema, "anyOf", value, depth + 1))
    requires OneSatisfies(schema, value) <==>
      (CombinatorPresent(schema, "oneOf") ==> HowManyTrue(Verdicts(None, schema, "oneOf", value, depth + 1)) == 1)
    requires value.Arr? ==> Items(None, schema, value, depth + 1) == ItemsSatisfy(schema, value)
    requires value.Obj? ==> Members(None, schema, value, depth + 1) == MembersSatisfy(schema, value)
    ensures Matches(None, schema, value, depth) == Satisfies(schema, value)
  {
    hide TypeOk, TypeSatisfied, AllSatisfy, AnySatisfies, OneSatisfies, Verdicts, CombinatorPresent, HowManyTrue,
      Items, Members, ItemsSatisfy, MembersSatisfy, ConstAndEnum, Property, DeepEqual;
    TypeMatchesMeans(schema, value, depth + 1);
    ConstMeans(schema, value);
  }

  lemma {:induction false} MatchesMeansBelow(schema: Json, key: string, value: Json, depth: nat)
    ensures var cs := CombinatorChildren(schema, key);
      forall i :: 0 <= i < |cs| ==> Matches(None, cs[i], value, depth) == Satisfies(cs[i], value)
    decreases schema, 0
  {
    hide Matches, Satisfies;
    var cs := CombinatorChildren(schema, key);
    forall i | 0 <= i < |cs| ensures Matches(None, cs[i], value, depth) == Satisfies(cs[i], value) {
      MatchesMeans(cs[i], value, depth);
    }
  }

  lemma TypeMatchesMeans(schema: Json, value: Json, depth: nat)
    requires value.Arr? ==> Items(None, schema, value, depth) == ItemsSatisfy(schema, value)
    requires value.Obj? ==> Members(None, schema, value, depth) == MembersSatisfy(schema, value)
    ensures TypeOk(None, schema, value, depth) == TypeSatisfied(schema, value)
  {
    hide Items, Members, ItemsSatisfy, MembersSatisfy, SizeInRange, NumberInRange, RequiredPresent, NoOtherKeys,
      KeysFit, AtLeast, AtMost, Equals, Property;
    RangeMeans(schema, value);
    if value.Arr? { BoundsMean(schema, "minItems", "maxItems", |value.items|); }
    if value.Str? { BoundsMean(schema, "minLength", "maxLength", |value.s|); }
    if value.Obj? { KeysMean(schema, value); }
  }

  /** Children placed in a segment are lower than the whole. */
  lemma SegmentLower(t: Tree, from: nat, cs: seq<Json>)
    requires Segment(t, from, cs)
    ensures forall i :: 0 <= i < |cs| ==> Height(Shape(cs[i])) < Height(t)
  {
    hide Shape;
    forall i | 0 <= i < |cs| ensures Height(Shape(cs[i])) < Height(t) {
      ChildBounds(t.kids, from + i);
    }
  }

  /** The bounded matcher refines the unbounded one wherever the schema is not
      deeper than what is left of the cutoff. */
  lemma {:induction false} CutoffInvisible(c: nat, schema: Json, value: Json, depth: nat)
    requires depth + Height(Shape(schema)) <= c
    ensures Matches(Some(c), schema, value, depth) == Matches(None, schema, value, depth)
    decreases schema, 1
  {
    Segments(schema);
    hide Shape, PropertyChildren, ItemsChildren, CombinatorChildren, Property, Verdicts, HowManyTrue, Items, Members,
      ConstAndEnum, ScalarOk, NoOtherKeys, RequiredPresent, SizeInRange, CombinatorPresent;
    var p, q := |PropertyChildren(schema)|, |PropertyChildren(schema)| + |ItemsChildren(schema)|;
    var all, any, one := CombinatorChildren(schema, "allOf"), CombinatorChildren(schema, "anyOf"),
      CombinatorChildren(schema, "oneOf");
    SegmentLower(Shape(schema), 0, PropertyChildren(schema));
    SegmentLower(Shape(schema), p, ItemsChildren(schema));
    SegmentLower(Shape(schema), q, all);
    SegmentLower(Shape(schema), q + |all|, any);
    SegmentLower(Shape(schema), q + |all| + |any|, one);
    CutoffInvisibleIn(c, schema, "allOf", value, depth + 1);
    CutoffInvisibleIn(c, schema, "anyOf", value, depth + 1);
    CutoffInvisibleIn(c, schema, "oneOf", value, depth + 1);
    if value.Arr? { CutoffInvisibleItems(c, schema, value, depth + 1); }
    if value.Obj? { CutoffInvisibleMembers(c, schema, value, depth + 1); }
  }

  lemma {:induction false} CutoffInvisibleIn(c: nat, schema: Json, combinator: string, value: Json, depth: nat)
    requires var cs := CombinatorChildren(schema, combinator);
      forall i :: 0 <= i < |cs| ==> depth + Height(Shape(cs[i])) <= c
    ensures Verdicts(Some(c), schema, combinator, value, depth) == Verdicts(None, schema, combinator, value, depth)
    decreases schema, 0
  {
    hide Matches, Shape, CombinatorChildren;
    var cs := CombinatorChildren(schema, combinator);
    forall i | 0 <= i < |cs| ensures Matches(Some(c), cs[i], value, depth) == Matches(None, cs[i], value, depth) {
      CutoffInvisible(c, cs[i], value, depth);
    }
  }

  lemma {:induction false} CutoffInvisibleItems(c: nat, schema: Json, value: Json, depth: nat)
    requires value.Arr?
    requires forall i :: 0 <= i < |ItemsChildren(schema)| ==> depth + Height(Shape(ItemsChildren(schema)[i])) <= c
    ensures Items(Some(c), schema, value, depth) == Items(None, schema, value, depth)
    decreases schema, 0
  {
    match Property(schema, "items")
    case Some(Obj(fs)) =>
      assert ItemsChildren(schema)[0] == Obj(fs);
      forall i | 0 <= i < |value.items|
        ensures Matches(Some(c), Obj(fs), value.items[i], depth) == Matches(None, Obj(fs), value.items[i], depth)
      {
        CutoffInvisible(c, Obj(fs), value.items[i], depth);
      }
    case _ =>
  }

  lemma {:induction false} CutoffInvisibleMembers(c: nat, schema: Json, value: Json, depth: nat)
    requires value.Obj?
    requires forall i :: 0 <= i < |PropertyChildren(schema)| ==> depth + Height(Shape(PropertyChildren(schema)[i])) <= c
    ensures Members(Some(c), schema, value, depth) == Members(None, schema, value, depth)
    decreases schema, 0
  {
    match Property(schema, "properties")
    case Some(Obj(ps)) =>
      forall i | 0 <= i < |ps| && Get(value.fields, ps[i].key).Some?
        ensures var v := Get(value.fields, ps[i].key).value;
          Matches(Some(c), ps[i].value, v, depth) == Matches(None, ps[i].value, v, depth)
      {
        assert PropertyChildren(schema)[i] == ps[i].value;
        CutoffInvisible(c, ps[i].value, Get(value.fields, ps[i].key).value, depth);
      }
    case _ =>
  }

  // ------------------------------------------------ matching and equality

  /** Deeply equal objects answer every lookup alike. */
  lemma LookupAlike(fs: seq<Field>, gs: seq<Field>, key: string)
    requires WellFormed(Obj(fs)) && WellFormed(Obj(gs)) && DeepEqual(Obj(fs), Obj(gs))
    ensures Get(fs, key).Some? <==> Get(gs, key).Some?
    ensures Get(fs, key).Some? ==>
      var v, w := Get(fs, key).value, Get(gs, key).value;
      WellFormed(v) && WellFormed(w) && DeepEqual(v, w)
  {
    if Get(fs, key).Some? {
      var i :| 0 <= i < |fs| && fs[i].key == key;
      GetFinds(fs, i);
      var j :| 0 <= j < |gs| && gs[j].key == key && gs[j].value == Get(gs, key).value;
    }
    if Get(gs, key).Some? {
      var j :| 0 <= j < |gs| && gs[j].key == key;
      var i := SameCountSameKeys(fs, gs, j);
    }
  }

  lemma ConstAlike(schema: Json, v: Json, w: Json)
    requires WellFormed(schema) && WellFormed(v) && WellFormed(w) && DeepEqual(v, w)
    ensures ConstAndEnum(schema, v) == ConstAndEnum(schema, w)
  {
    hide DeepEqual;
    DeepEqualSymmetric(v, w);
    forall c | WellFormed(c) ensures DeepEqual(c, v) == DeepEqual(c, w) {
      if DeepEqual(c, v) { DeepEqualTransitive(c, v, w); }
      if DeepEqual(c, w) { DeepEqualTransitive(c, w, v); }
    }
    WellFormedProperty(schema, "const");
    WellFormedProperty(schema, "enum");
  }

  lemma WellFormedProperty(schema: Json, key: string)
    requires WellFormed(schema)
    ensures Property(schema, key).Some? ==> WellFormed(Property(schema, key).value)
  {
  }

  lemma LookupsAlike(fs: seq<Field>, gs: seq<Field>)
    requires WellFormed(Obj(fs)) && WellFormed(Obj(gs)) && DeepEqual(Obj(fs), Obj(gs))
    ensures forall key :: Get(fs, key).Some? <==> Get(gs, key).Some?
  {
    hide DeepEqual, WellFormed, Get;
    forall key ensures Get(fs, key).Some? <==> Get(gs, key).Some? { LookupAlike(fs, gs, key); }
  }

  /** The two checks on an object that only look at which keys it has. */
  lemma KeyChecksCarry(schema: Json, v: Json, w: Json)
    requires v.Obj? && w.Obj?
    requires forall key :: Get(v.fields, key).Some? <==> Get(w.fields, key).Some?
    ensures RequiredPresent(schema, v) ==> RequiredPresent(schema, w)
    ensures NoOtherKeys(schema, v) ==> NoOtherKeys(schema, w)
  {
    hide Property, Get;
    if NoOtherKeys(schema, v) && Property(schema, "additionalProperties") == Some(Bool(false)) {
      var properties := match Property(schema, "properties") case Some(Obj(ps)) => ps case _ => [];
      forall j | 0 <= j < |w.fields| ensures Get(properties, w.fields[j].key).Some? {
        assert Get(w.fields, w.fields[j].key).Some?;
        var i :| 0 <= i < |v.fields| && v.fields[i].key == w.fields[j].key;
      }
    }
  }

  /** Matching cannot tell deeply equal values apart: property order in the value
      never decides whether it is accepted. */
  lemma {:induction false} EqualValuesMatchAlike(k: Option<nat>, schema: Json, v: Json,
        w: Json, depth: nat)
    requires WellFormed(schema) && WellFormed(v) && WellFormed(w) && DeepEqual(v, w)
    ensures Matches(k, schema, v, depth) == Matches(k, schema, w, depth)
    decreases schema, 1
  {
    hide Matches;
    ConstAlike(schema, v, w);
    EqualValuesInCombinator(k, schema, "allOf", v, w, depth + 1);
    EqualValuesInCombinator(k, schema, "anyOf", v, w, depth + 1);
    EqualValuesInCombinator(k, schema, "oneOf", v, w, depth + 1);
    if v.Arr? { EqualItemsMatchAlike(k, schema, v, w, depth + 1); }
    if v.Obj? {
      EqualMembersMatchAlike(k, schema, v, w, depth + 1);
      LookupsAlike(v.fields, w.fields);
      KeyChecksCarry(schema, v, w);
      KeyChecksCarry(schema, w, v);
    }
    hide WellFormed, Verdicts, Items, Members, ConstAndEnum, NoOtherKeys,
      RequiredPresent;
    NodeAlike(k, schema, v, w, depth);
  }

  /** One node treats two equal values alike when all its parts do. */
  lemma NodeAlike(k: Option<nat>, schema: Json, v: Json, w: Json, depth: nat)
    requires DeepEqual(v, w) && ConstAndEnum(schema, v) == ConstAndEnum(schema, w)
    requires Verdicts(k, schema, "allOf", v, depth + 1) == Verdicts(k, schema, "allOf", w, depth + 1)
    requires Verdicts(k, schema, "anyOf", v, depth + 1) == Verdicts(k, schema, "anyOf", w, depth + 1)
    requires Verdicts(k, schema, "oneOf", v, depth + 1) == Verdicts(k, schema, "oneOf", w, depth + 1)
    requires v.Arr? ==> Items(k, schema, v, depth + 1) == Items(k, schema, w, depth + 1)
    requires v.Obj? ==>
      && Members(k, schema, v, depth + 1) == Members(k, schema, w, depth + 1)
      && RequiredPresent(schema, v) == RequiredPresent(schema, w) && NoOtherKeys(schema, v) == NoOtherKeys(schema, w)
    ensures Matches(k, schema, v, depth) == Matches(k, schema, w, depth)
  {
    hide Verdicts, HowManyTrue, Items, Members, ConstAndEnum, NoOtherKeys, RequiredPresent,
      CombinatorPresent;
  }

  lemma {:induction false} EqualValuesInCombinator(k: Option<nat>, schema: Json, combinator: string,
                                                   v: Json, w: Json, depth: nat)
    requires WellFormed(schema) && WellFormed(v) && WellFormed(w) && DeepEqual(v, w)
    ensures Verdicts(k, schema, combinator, v, depth) == Verdicts(k, schema, combinator, w, depth)
    decreases schema, 0
  {
    hide Matches, DeepEqual;
    WellFormedProperty(schema, combinator);
    var cs := CombinatorChildren(schema, combinator);
    forall i | 0 <= i < |cs| ensures Matches(k, cs[i], v, depth) == Matches(k, cs[i], w, depth) {
      EqualValuesMatchAlike(k, cs[i], v, w, depth);
    }
  }

  lemma {:induction false} EqualItemsMatchAlike(k: Option<nat>, schema: Json, v: Json,
        w: Json, depth: nat)
    requires WellFormed(schema) && WellFormed(v) && WellFormed(w) && DeepEqual(v, w)
    requires v.Arr?
    ensures Items(k, schema, v, depth) == Items(k, schema, w, depth)
    decreases schema, 0
  {
    hide Matches;
    WellFormedProperty(schema, "items");
    match Property(schema, "items")
    case Some(Obj(fs)) =>
      forall i | 0 <= i < |v.items|
        ensures Matches(k, Obj(fs), v.items[i], depth) == Matches(k, Obj(fs), w.items[i], depth)
      {
        EqualValuesMatchAlike(k, Obj(fs), v.items[i], w.items[i], depth);
      }
    case _ =>
  }

  lemma {:induction false} EqualMembersMatchAlike(k: Option<nat>, schema: Json, v: Json,
        w: Json, depth: nat)
    requires WellFormed(schema) && WellFormed(v) && WellFormed(w) && DeepEqual(v, w)
    requires v.Obj?
    ensures Members(k, schema, v, depth) == Members(k, schema, w, depth)
    decreases schema, 0
  {
    hide Matches;
    WellFormedProperty(schema, "properties");
    match Property(schema, "properties")
    case Some(Obj(ps)) =>
      forall i | 0 <= i < |ps|
        ensures Get(v.fields, ps[i].key).Some? <==> Get(w.fields, ps[i].key).Some?
        ensures Get(v.fields, ps[i].key).Some? ==>
          Matches(k, ps[i].value, Get(v.fields, ps[i].key).value, depth)
          == Matches(k, ps[i].value, Get(w.fields, ps[i].key).value, depth)
      {
        LookupAlike(v.fields, w.fields, ps[i].key);
        if Get(v.fields, ps[i].key).Some? {
          EqualValuesMatchAlike(k, ps[i].value, Get(v.fields, ps[i].key).value, Get(w.fields, ps[i].key).value, depth);
        }
      }
    case _ =>
  }

  /** The whole check of a structured output: it passes exactly when the schema
      is supported and the value matches it in the unbounded sense. */
  method AssertMatches(schema: Json, value: Json) returns (ok: bool)
    requires schema.Obj?
    ensures ok <==> Supported(schema) && Satisfies(schema, value)
    ensures ok <==> Supported(schema) && Matches(None, schema, value, 0)
  {
    hide Satisfies, Matches;
    var refusal := AssertSupported(schema);
    MatchesMeans(schema, value, 0);
    if refusal.Some? { return false; }
    CutoffInvisible(MAX_SCHEMA_DEPTH, schema, value, 0);
    return Matches(Some(MAX_SCHEMA_DEPTH), schema, value, 0);
  }

  /** Where the inspection and the matcher part: the inspection reads `type`
      through string conversion, the matcher compares it as it stands. A type
      that passes the inspection constrains values exactly when it is a string;
      null and one-element arrays pass and are then ignored. */
  lemma TypeConstrainsIffString(t: Json)
    requires SupportedType(t)
    ensures (forall v :: Matches(None, Obj([Field("type", t)]), v, 0)) <==> !t.Str?
  {
    var schema := Obj([Field("type", t)]);
    OnlyType(t);
    if t.Str? {
      var v := if t == Str("null") then Bool(true) else Null;
      assert !Matches(None, schema, v, 0);
    }
  }

  lemma OnlyType(t: Json)
    ensures Property(Obj([Field("type", t)]), "type") == Some(t)
    ensures forall key :: key != "type" ==> Property(Obj([Field("type", t)]), key).None?
  {
    assert Get([Field("type", t)], "type") == Some(t);
  }
}
