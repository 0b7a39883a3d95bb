/** JSON values and the two notions of sameness the API uses: the canonical form
    behind the idempotency hash, and the validator's deep equality. */
module Json {
  import opened Common

  /** An object keeps its entries in enumeration order. Numbers are the finite
      doubles other than negative zero. */
  datatype Json =
    | Null
    | Bool(b: bool)
    | Num(n: real)
    | Str(s: string)
    | Arr(items: seq<Json>)
    | Obj(fields: seq<Field>)

  datatype Field = Field(key: string, value: Json)

  ghost predicate DistinctKeys(fs: seq<Field>) {
    forall i, j :: 0 <= i < j < |fs| ==> fs[i].key != fs[j].key
  }

  /** Objects have distinct keys, at every depth. */
  ghost predicate WellFormed(v: Json) {
    match v
    case Arr(xs) => forall i :: 0 <= i < |xs| ==> WellFormed(xs[i])
    case Obj(fs) => DistinctKeys(fs) && forall i :: 0 <= i < |fs| ==> WellFormed(fs[i].value)
    case _ => true
  }

  /** Property lookup; `None` is JavaScript's missing property. */
  function Get(fs: seq<Field>, key: string): (r: Option<Json>)
    ensures r.Some? ==> exists i :: 0 <= i < |fs| && fs[i] == Field(key, r.value)
    ensures r.None? <==> forall i :: 0 <= i < |fs| ==> fs[i].key != key
  {
    if fs == [] then None
    else if fs[0].key == key then
      assert fs[0] == Field(key, fs[0].value);
      Some(fs[0].value)
    else
      var r := Get(fs[1..], key);
      assert forall i :: 1 <= i < |fs| ==> fs[i] == fs[1..][i - 1];
      r
  }

  lemma {:induction false} GetFinds(fs: seq<Field>, i: nat)
    requires DistinctKeys(fs) && i < |fs|
    ensures Get(fs, fs[i].key) == Some(fs[i].value)
  {
    if i > 0 { GetFinds(fs[1..], i - 1); }
  }

  predicate DeepEqual(a: Json, b: Json)
    decreases a
  {
    match a
    case Arr(xs) =>
      b.Arr? && |xs| == |b.items| && forall i :: 0 <= i < |xs| ==> DeepEqual(xs[i], b.items[i])
    case Obj(fs) =>
      && b.Obj? && |fs| == |b.fields|
      && forall i :: 0 <= i < |fs| ==>
           var other := Get(b.fields, fs[i].key);
           other.Some? && DeepEqual(fs[i].value, other.value)
    case _ => a == b
  }

  /** A key order that may leave keys tied, as any consistent comparison gives one. */
  ghost predicate WeakOrder(less: (string, string) -> bool) {
    && (forall k :: !less(k, k))
    && (forall k, l, m :: less(k, l) && less(l, m) ==> less(k, m))
    && (forall k, l, m :: less(k, m) ==> less(k, l) || less(l, m))
  }

  predicate Tied(less: (string, string) -> bool, k: string, l: string) { !less(k, l) && !less(l, k) }

  /** A key order that tells every two keys apart. */
  ghost predicate StrictOrder(less: (string, string) -> bool) {
    WeakOrder(less) && forall k, l :: k != l ==> less(k, l) || less(l, k)
  }

  /** No two entries of an object have tied keys. */
  ghost predicate Untied(less: (string, string) -> bool, fs: seq<Field>) {
    forall i, j :: 0 <= i < j < |fs| ==> !Tied(less, fs[i].key, fs[j].key)
  }

  /** No object in the value, at any depth, has two tied keys. */
  ghost predicate NoTies(less: (string, string) -> bool, v: Json)
    decreases v
  {
    match v
    case Arr(xs) => forall i :: 0 <= i < |xs| ==> NoTies(less, xs[i])
    case Obj(fs) => Untied(less, fs) && forall i :: 0 <= i < |fs| ==> NoTies(less, fs[i].value)
    case _ => true
  }

  /** Character by character, a prefix first. */
  predicate Lexicographic(k: string, l: string) {
    l != "" && (k == "" || k[0] < l[0] || (k[0] == l[0] && Lexicographic(k[1..], l[1..])))
  }

  lemma SameHeadSameTail(k: string, l: string)
    requires k != "" && l != "" && k[0] == l[0]
    ensures k == l <==> k[1..] == l[1..]
  {
    assert k == [k[0]] + k[1..] && l == [l[0]] + l[1..];
  }

  lemma {:induction false} LexicographicTotal(k: string, l: string)
    ensures !(Lexicographic(k, l) && Lexicographic(l, k))
    ensures k != l <==> Lexicographic(k, l) || Lexicographic(l, k)
  {
    if k != "" && l != "" && k[0] == l[0] {
      LexicographicTotal(k[1..], l[1..]);
      SameHeadSameTail(k, l);
    }
  }

  lemma {:induction false} LexicographicTransitive(k: string, l: string, m: string)
    requires Lexicographic(k, l) && Lexicographic(l, m)
    ensures Lexicographic(k, m)
  {
    if k != "" && k[0] == l[0] == m[0] { LexicographicTransitive(k[1..], l[1..], m[1..]); }
  }

  /** Comparing keys character by character leaves none tied. */
  lemma LexicographicIsStrict()
    ensures StrictOrder(Lexicographic)
  {
    hide Lexicographic;
    forall k, l
      ensures !(Lexicographic(k, l) && Lexicographic(l, k)) && (k != l <==> Lexicographic(k, l) || Lexicographic(l, k))
    {
      LexicographicTotal(k, l);
    }
    forall k, l, m | Lexicographic(k, l) && Lexicographic(l, m) ensures Lexicographic(k, m) {
      LexicographicTransitive(k, l, m);
    }
    forall k, l, m | Lexicographic(k, m) ensures Lexicographic(k, l) || Lexicographic(l, m) {
      LexicographicTotal(k, l);
      LexicographicTotal(l, m);
      if Lexicographic(l, k) { LexicographicTransitive(l, k, m); }
    }
  }

  function Insert(less: (string, string) -> bool, f: Field, fs: seq<Field>): seq<Field> {
    if fs == [] || less(f.key, fs[0].key) then [f] + fs
    else [fs[0]] + Insert(less, f, fs[1..])
  }

  /** A stable insertion sort by key. */
  function SortByKey(less: (string, string) -> bool, fs: seq<Field>): seq<Field> {
    if fs == [] then [] else Insert(less, fs[|fs| - 1], SortByKey(less, fs[..|fs| - 1]))
  }

  /** Sorting moves entries by key alone, so it is the same whether the children
      are made canonical before or after. */
  function Canonicalize(less: (string, string) -> bool, v: Json): Json
    decreases v
  {
    match v
    case Arr(xs) => Arr(seq(|xs|, i requires 0 <= i < |xs| => Canonicalize(less, xs[i])))
    case Obj(fs) => Obj(SortByKey(less, CanonicalFields(less, fs)))
    case _ => v
  }

  function CanonicalFields(less: (string, string) -> bool, fs: seq<Field>): (r: seq<Field>)
    ensures |r| == |fs|
    ensures forall i :: 0 <= i < |fs| ==> r[i] == Field(fs[i].key, Canonicalize(less, fs[i].value))
    decreases fs
  {
    seq(|fs|, i requires 0 <= i < |fs| => Field(fs[i].key, Canonicalize(less, fs[i].value)))
  }

  // ---------------------------------------------------------------- sorting

  lemma {:induction false} InsertSame(less: (string, string) -> bool, f: Field, fs: seq<Field>)
    ensures |Insert(less, f, fs)| == |fs| + 1
    ensures forall g :: g in Insert(less, f, fs) <==> g == f || g in fs
  {
    if fs != [] && !less(f.key, fs[0].key) {
      InsertSame(less, f, fs[1..]);
      assert fs == [fs[0]] + fs[1..];
    }
  }

  ghost predicate NewKey(key: string, fs: seq<Field>) {
    forall f :: f in fs ==> f.key != key
  }

  lemma ConsDistinct(f: Field, fs: seq<Field>)
    requires DistinctKeys(fs) && NewKey(f.key, fs)
    ensures DistinctKeys([f] + fs)
  {
    forall j | 0 <= j < |fs| ensures fs[j].key != f.key {
      assert fs[j] in fs;
    }
  }

  lemma {:induction false} InsertDistinct(less: (string, string) -> bool, f: Field, fs: seq<Field>)
    requires DistinctKeys(fs) && NewKey(f.key, fs)
    ensures DistinctKeys(Insert(less, f, fs))
  {
    if fs == [] || less(f.key, fs[0].key) {
      ConsDistinct(f, fs);
    } else {
      assert NewKey(f.key, fs[1..]) && fs[0] in fs;
      InsertDistinct(less, f, fs[1..]);
      InsertSame(less, f, fs[1..]);
      assert forall j :: 1 <= j < |fs| ==> fs[j].key != fs[0].key;
      ConsDistinct(fs[0], Insert(less, f, fs[1..]));
    }
  }

  /** Whatever the comparison, sorting only permutes the entries. */
  lemma {:induction false} SortSame(less: (string, string) -> bool, fs: seq<Field>)
    ensures |SortByKey(less, fs)| == |fs|
    ensures forall f :: f in SortByKey(less, fs) <==> f in fs
    ensures DistinctKeys(fs) ==> DistinctKeys(SortByKey(less, fs))
  {
    if fs != [] {
      var front, last := fs[..|fs| - 1], fs[|fs| - 1];
      SortSame(less, front);
      InsertSame(less, last, SortByKey(less, front));
      assert fs == front + [last];
      if DistinctKeys(fs) { InsertDistinct(less, last, SortByKey(less, front)); }
    }
  }

  ghost predicate Ordered(less: (string, string) -> bool, fs: seq<Field>) {
    forall i, j :: 0 <= i < j < |fs| ==> !less(fs[j].key, fs[i].key)
  }

  lemma {:induction false} InsertOrders(less: (string, string) -> bool, f: Field, fs: seq<Field>)
    requires WeakOrder(less) && Ordered(less, fs)
    ensures Ordered(less, Insert(less, f, fs))
  {
    if fs != [] && !less(f.key, fs[0].key) {
      var tail := fs[1..];
      InsertOrders(less, f, tail);
      InsertSame(less, f, tail);
      var rest := Insert(less, f, tail);
      forall j | 0 <= j < |rest| ensures !less(rest[j].key, fs[0].key) {
        assert rest[j] in rest;
      }
    }
  }

  lemma {:induction false} SortOrders(less: (string, string) -> bool, fs: seq<Field>)
    requires WeakOrder(less)
    ensures Ordered(less, SortByKey(less, fs))
  {
    if fs != [] {
      SortOrders(less, fs[..|fs| - 1]);
      InsertOrders(less, fs[|fs| - 1], SortByKey(less, fs[..|fs| - 1]));
    }
  }

  lemma SomeEntry(fs: seq<Field>)
    ensures fs == [] || exists f :: f in fs
  {
    if fs != [] { assert fs[0] in fs; }
  }

  lemma UntiedPair(less: (string, string) -> bool, fs: seq<Field>, f: Field, g: Field)
    requires Untied(less, fs) && f in fs && g in fs && f != g
    ensures !Tied(less, f.key, g.key)
  {
    var i :| 0 <= i < |fs| && fs[i] == f;
    var j :| 0 <= j < |fs| && fs[j] == g;
    var low, high := if i < j then i else j, if i < j then j else i;
    assert !Tied(less, fs[low].key, fs[high].key);
  }

  lemma OrderedFirst(less: (string, string) -> bool, fs: seq<Field>, f: Field)
    requires Ordered(less, fs) && f in fs
    ensures f == fs[0] || !less(f.key, fs[0].key)
  {
    var i :| 0 <= i < |fs| && fs[i] == f;
  }

  lemma SameFirst(less: (string, string) -> bool, a: seq<Field>, b: seq<Field>)
    requires Ordered(less, a) && Ordered(less, b) && Untied(less, a) && a != [] && b != []
    requires a[0] in b && b[0] in a
    ensures a[0] == b[0]
  {
    hide Ordered, Untied;
    OrderedFirst(less, a, b[0]);
    OrderedFirst(less, b, a[0]);
    if a[0] != b[0] { UntiedPair(less, a, a[0], b[0]); }
  }

  /** An ordered list without ties is determined by its elements. */
  lemma {:induction false} OrderedUnique(less: (string, string) -> bool, a: seq<Field>, b: seq<Field>)
    requires Ordered(less, a) && Ordered(less, b) && Untied(less, a) && DistinctKeys(a) && DistinctKeys(b)
    requires forall f :: f in a <==> f in b
    ensures a == b
  {
    if a == [] {
      SomeEntry(b);
    } else {
      assert a[0] in a && a[0] in b;
      assert b[0] in a;
      SameFirst(less, a, b);
      assert a[0] !in a[1..] && b[0] !in b[1..];
      assert a == [a[0]] + a[1..] && b == [b[0]] + b[1..];
      hide Ordered, Untied, Tied, DistinctKeys;
      TailsToo(less, a);
      TailsToo(less, b);
      UntiedTail(less, a);
      forall f ensures f in a[1..] <==> f in b[1..] {
        assert f in a[1..] ==> f in b;
        assert f in b[1..] ==> f in a;
      }
      OrderedUnique(less, a[1..], b[1..]);
    }
  }

  lemma TailsToo(less: (string, string) -> bool, a: seq<Field>)
    requires Ordered(less, a) && DistinctKeys(a) && a != []
    ensures Ordered(less, a[1..]) && DistinctKeys(a[1..])
  {
  }

  lemma UntiedTail(less: (string, string) -> bool, a: seq<Field>)
    requires Untied(less, a) && a != []
    ensures Untied(less, a[1..])
  {
  }

  lemma UntiedSort(less: (string, string) -> bool, fs: seq<Field>)
    requires DistinctKeys(fs) && Untied(less, fs)
    ensures Untied(less, SortByKey(less, fs))
  {
    hide SortByKey, Tied;
    SortSame(less, fs);
    var sorted := SortByKey(less, fs);
    forall i, j | 0 <= i < j < |sorted| ensures !Tied(less, sorted[i].key, sorted[j].key) {
      assert sorted[i] in fs && sorted[j] in fs && sorted[i] != sorted[j];
      UntiedPair(less, fs, sorted[i], sorted[j]);
    }
  }

  /** Two lists of entries, the keys of the first untied, sort alike exactly when they
      hold the same entries. */
  lemma SortAlike(less: (string, string) -> bool, a: seq<Field>, b: seq<Field>)
    requires WeakOrder(less) && DistinctKeys(a) && DistinctKeys(b) && Untied(less, a)
    ensures SortByKey(less, a) == SortByKey(less, b) <==> (forall f :: f in a <==> f in b)
  {
    hide SortByKey, WeakOrder;
    SortSame(less, a);
    SortSame(less, b);
    SortOrders(less, a);
    SortOrders(less, b);
    UntiedSort(less, a);
    hide Ordered, Untied, DistinctKeys;
    if forall f :: f in a <==> f in b { OrderedUnique(less, SortByKey(less, a), SortByKey(less, b)); }
  }

  /** Sorting is stable enough to leave an ordered list alone. */
  lemma {:induction false} SortOfOrdered(less: (string, string) -> bool, fs: seq<Field>)
    requires Ordered(less, fs)
    ensures SortByKey(less, fs) == fs
  {
    if fs != [] {
      var front, last := fs[..|fs| - 1], fs[|fs| - 1];
      SortOfOrdered(less, front);
      InsertLast(less, last, front);
      assert fs == front + [last];
    }
  }

  lemma {:induction false} InsertLast(less: (string, string) -> bool, f: Field, fs: seq<Field>)
    requires forall i :: 0 <= i < |fs| ==> !less(f.key, fs[i].key)
    ensures Insert(less, f, fs) == fs + [f]
  {
    if fs != [] {
      InsertLast(less, f, fs[1..]);
      assert fs + [f] == [fs[0]] + (fs[1..] + [f]);
    }
  }

  // ------------------------------------------------- the key-count argument

  ghost function Keys(fs: seq<Field>): set<string> {
    set i | 0 <= i < |fs| :: fs[i].key
  }

  lemma {:induction false} KeyCount(fs: seq<Field>)
    requires DistinctKeys(fs)
    ensures |Keys(fs)| == |fs|
  {
    if fs != [] {
      var n := |fs| - 1;
      KeyCount(fs[..n]);
      assert Keys(fs) == Keys(fs[..n]) + {fs[n].key};
      assert fs[n].key !in Keys(fs[..n]);
    }
  }

  lemma SubsetOfSameSize<T>(a: set<T>, b: set<T>)
    requires a <= b && |a| == |b|
    ensures a == b
  {
    assert b == a + (b - a);
    assert |b| == |a| + |b - a|;
  }

  /** If every key of `fs` is a key of `gs`, and the counts agree, then every key
      of `gs` is a key of `fs`. */
  lemma SameCountSameKeys(fs: seq<Field>, gs: seq<Field>, j: nat) returns (i: nat)
    requires DistinctKeys(fs) && DistinctKeys(gs) && |fs| == |gs| && j < |gs|
    requires forall k :: 0 <= k < |fs| ==> Get(gs, fs[k].key).Some?
    ensures i < |fs| && fs[i].key == gs[j].key
  {
    KeyCount(fs);
    KeyCount(gs);
    forall key | key in Keys(fs) ensures key in Keys(gs) {
      assert Get(gs, key).Some?;
    }
    SubsetOfSameSize(Keys(fs), Keys(gs));
    assert gs[j].key in Keys(fs);
    i :| 0 <= i < |fs| && fs[i].key == gs[j].key;
  }

  // --------------------------------------------- deep equality -------------

  /** Deep equality is reflexive, which is what the identity shortcut in the code
      relies on. */
  lemma {:induction false} DeepEqualReflexive(a: Json)
    requires WellFormed(a)
    ensures DeepEqual(a, a)
    decreases a
  {
    match a
    case Arr(xs) =>
      forall i | 0 <= i < |xs| ensures DeepEqual(xs[i], xs[i]) { DeepEqualReflexive(xs[i]); }
    case Obj(fs) =>
      forall i | 0 <= i < |fs|
        ensures var other := Get(fs, fs[i].key); other.Some? && DeepEqual(fs[i].value, other.value)
      {
        GetFinds(fs, i);
        DeepEqualReflexive(fs[i].value);
      }
    case _ =>
  }

  /** Symmetry is not visible in the code, which walks the left operand only. */
  lemma {:induction false} DeepEqualSymmetric(a: Json, b: Json)
    requires WellFormed(a) && WellFormed(b) && DeepEqual(a, b)
    ensures DeepEqual(b, a)
    decreases a
  {
    match a
    case Arr(xs) =>
      forall i | 0 <= i < |xs| ensures DeepEqual(b.items[i], xs[i]) { DeepEqualSymmetric(xs[i], b.items[i]); }
    case Obj(fs) =>
      forall j | 0 <= j < |b.fields|
        ensures var other := Get(fs, b.fields[j].key); other.Some? && DeepEqual(b.fields[j].value, other.value)
      {
        var i := SameCountSameKeys(fs, b.fields, j);
        GetFinds(fs, i);
        GetFinds(b.fields, j);
        DeepEqualSymmetric(fs[i].value, b.fields[j].value);
      }
    case _ =>
  }

  lemma {:induction false} DeepEqualTransitive(a: Json, b: Json, c: Json)
    requires WellFormed(a) && WellFormed(b) && WellFormed(c) && DeepEqual(a, b) && DeepEqual(b, c)
    ensures DeepEqual(a, c)
    decreases a
  {
    match a
    case Arr(xs) =>
      forall i | 0 <= i < |xs| ensures DeepEqual(xs[i], c.items[i]) {
        DeepEqualTransitive(xs[i], b.items[i], c.items[i]);
      }
    case Obj(fs) =>
      forall i | 0 <= i < |fs|
        ensures var other := Get(c.fields, fs[i].key); other.Some? && DeepEqual(fs[i].value, other.value)
      {
        var j :| 0 <= j < |b.fields| && b.fields[j] == Field(fs[i].key, Get(b.fields, fs[i].key).value);
        var k :| 0 <= k < |c.fields| && c.fields[k] == Field(fs[i].key, Get(c.fields, b.fields[j].key).value);
        DeepEqualTransitive(fs[i].value, b.fields[j].value, c.fields[k].value);
      }
    case _ =>
  }

  // ------------------------------------------------ canonical form and equality

  /** For every comparison, whatever it ties, the canonical form is a well-formed value
      deeply equal to the one it came from. */
  lemma {:induction false} CanonicalIsEqual(less: (string, string) -> bool, a: Json)
    requires WellFormed(a)
    ensures WellFormed(Canonicalize(less, a)) && DeepEqual(a, Canonicalize(less, a))
    decreases a
  {
    match a
    case Arr(xs) =>
      forall i | 0 <= i < |xs|
        ensures WellFormed(Canonicalize(less, xs[i])) && DeepEqual(xs[i], Canonicalize(less, xs[i]))
      {
        CanonicalIsEqual(less, xs[i]);
      }
    case Obj(fs) =>
      forall i | 0 <= i < |fs|
        ensures WellFormed(Canonicalize(less, fs[i].value)) && DeepEqual(fs[i].value, Canonicalize(less, fs[i].value))
      {
        CanonicalIsEqual(less, fs[i].value);
      }
      SortedIsEqual(less, fs);
    case _ =>
  }

  /** Sorting the entries of an object, their values made canonical. */
  lemma SortedIsEqual(less: (string, string) -> bool, fs: seq<Field>)
    requires DistinctKeys(fs)
    requires forall i :: 0 <= i < |fs| ==>
      WellFormed(Canonicalize(less, fs[i].value)) && DeepEqual(fs[i].value, Canonicalize(less, fs[i].value))
    ensures var sorted := SortByKey(less, CanonicalFields(less, fs));
      WellFormed(Obj(sorted)) && DeepEqual(Obj(fs), Obj(sorted))
  {
    hide Canonicalize, SortByKey;
    var cs := CanonicalFields(less, fs);
    var sorted := SortByKey(less, cs);
    SortSame(less, cs);
    forall j | 0 <= j < |sorted| ensures WellFormed(sorted[j].value) {
      assert sorted[j] in cs;
    }
    hide WellFormed;
    SameEntriesEqual(fs, cs, sorted);
  }

  /** The same entries in any order, their values deeply equal, make a deeply equal
      object. */
  lemma SameEntriesEqual(fs: seq<Field>, cs: seq<Field>, sorted: seq<Field>)
    requires |cs| == |fs| == |sorted| && DistinctKeys(sorted) && forall f :: f in cs ==> f in sorted
    requires forall i :: 0 <= i < |fs| ==> cs[i].key == fs[i].key && DeepEqual(fs[i].value, cs[i].value)
    ensures DeepEqual(Obj(fs), Obj(sorted))
  {
    forall i | 0 <= i < |fs|
      ensures var other := Get(sorted, fs[i].key); other.Some? && DeepEqual(fs[i].value, other.value)
    {
      assert cs[i] in sorted;
      var j :| 0 <= j < |sorted| && sorted[j] == cs[i];
      GetFinds(sorted, j);
    }
  }

  /** For every comparison, values with one canonical form are deeply equal. */
  lemma CanonicalImpliesDeepEqual(less: (string, string) -> bool, a: Json, b: Json)
    requires WellFormed(a) && WellFormed(b) && Canonicalize(less, a) == Canonicalize(less, b)
    ensures DeepEqual(a, b)
  {
    hide Canonicalize, DeepEqual, WellFormed;
    CanonicalIsEqual(less, a);
    CanonicalIsEqual(less, b);
    DeepEqualSymmetric(b, Canonicalize(less, b));
    DeepEqualTransitive(a, Canonicalize(less, a), b);
  }

  /** Canonicalizing twice is canonicalizing once, also where keys are tied. */
  lemma {:induction false} CanonicalIdempotent(less: (string, string) -> bool, a: Json)
    requires WeakOrder(less)
    ensures Canonicalize(less, Canonicalize(less, a)) == Canonicalize(less, a)
    decreases a
  {
    match a
    case Arr(xs) =>
      forall i | 0 <= i < |xs|
        ensures Canonicalize(less, Canonicalize(less, xs[i])) == Canonicalize(less, xs[i])
      {
        CanonicalIdempotent(less, xs[i]);
      }
    case Obj(fs) =>
      forall i | 0 <= i < |fs|
        ensures Canonicalize(less, Canonicalize(less, fs[i].value)) == Canonicalize(less, fs[i].value)
      {
        CanonicalIdempotent(less, fs[i].value);
      }
      SortedStays(less, fs);
    case _ =>
  }

  lemma SortedStays(less: (string, string) -> bool, fs: seq<Field>)
    requires WeakOrder(less)
    requires forall i :: 0 <= i < |fs| ==>
      Canonicalize(less, Canonicalize(less, fs[i].value)) == Canonicalize(less, fs[i].value)
    ensures var sorted := SortByKey(less, CanonicalFields(less, fs));
      SortByKey(less, CanonicalFields(less, sorted)) == sorted
  {
    hide Canonicalize, SortByKey, WeakOrder;
    var cs := CanonicalFields(less, fs);
    var sorted := SortByKey(less, cs);
    SortSame(less, cs);
    SortOrders(less, cs);
    forall i | 0 <= i < |sorted| ensures CanonicalFields(less, sorted)[i] == sorted[i] {
      assert sorted[i] in cs;
    }
    assert CanonicalFields(less, sorted) == sorted;
    SortOfOrdered(less, sorted);
  }

  /** Where the canonical forms of deeply equal children agree, deeply equal objects
      have the same canonical entries. */
  lemma EqualObjectsSameFields(less: (string, string) -> bool, fs: seq<Field>, gs: seq<Field>)
    requires DistinctKeys(fs) && DistinctKeys(gs) && DeepEqual(Obj(fs), Obj(gs))
    requires forall i, j :: 0 <= i < |fs| && 0 <= j < |gs| && DeepEqual(fs[i].value, gs[j].value) ==>
      Canonicalize(less, fs[i].value) == Canonicalize(less, gs[j].value)
    ensures forall f :: f in CanonicalFields(less, fs) <==> f in CanonicalFields(less, gs)
  {
    hide Canonicalize;
    var ca, cb := CanonicalFields(less, fs), CanonicalFields(less, gs);
    forall i | 0 <= i < |fs| ensures ca[i] in cb {
      var other := Get(gs, fs[i].key);
      var j :| 0 <= j < |gs| && gs[j] == Field(fs[i].key, other.value);
      assert cb[j] == ca[i];
    }
    forall j | 0 <= j < |gs| ensures cb[j] in ca {
      var i := SameCountSameKeys(fs, gs, j);
      GetFinds(gs, j);
      assert ca[i] == cb[j];
    }
  }

  /** A value without tied keys has the canonical form of every value deeply equal to
      it. */
  lemma {:induction false} NoTiesSuffices(less: (string, string) -> bool, a: Json, b: Json)
    requires WeakOrder(less) && WellFormed(a) && WellFormed(b) && NoTies(less, a) && DeepEqual(a, b)
    ensures Canonicalize(less, a) == Canonicalize(less, b)
    decreases a
  {
    hide WeakOrder, SortByKey;
    match a
    case Arr(xs) =>
      forall i | 0 <= i < |xs| ensures Canonicalize(less, xs[i]) == Canonicalize(less, b.items[i]) {
        NoTiesSuffices(less, xs[i], b.items[i]);
      }
    case Obj(fs) =>
      forall i, j | 0 <= i < |fs| && 0 <= j < |b.fields| && DeepEqual(fs[i].value, b.fields[j].value)
        ensures Canonicalize(less, fs[i].value) == Canonicalize(less, b.fields[j].value)
      {
        NoTiesSuffices(less, fs[i].value, b.fields[j].value);
      }
      EqualObjectsSameFields(less, fs, b.fields);
      hide Tied;
      SortAlike(less, CanonicalFields(less, fs), CanonicalFields(less, b.fields));
    case _ =>
  }

  /** For a value without tied keys the canonical form decides deep equality. */
  lemma CanonicalIffDeepEqual(less: (string, string) -> bool, a: Json, b: Json)
    requires WeakOrder(less) && WellFormed(a) && WellFormed(b) && NoTies(less, a)
    ensures Canonicalize(less, a) == Canonicalize(less, b) <==> DeepEqual(a, b)
  {
    hide WeakOrder, WellFormed, NoTies, Canonicalize, DeepEqual;
    if DeepEqual(a, b) { NoTiesSuffices(less, a, b); }
    if Canonicalize(less, a) == Canonicalize(less, b) { CanonicalImpliesDeepEqual(less, a, b); }
  }

  // ---------------------------------------------------------------- tied keys

  /** The entries whose keys are tied with `k`. */
  function TiedWith(less: (string, string) -> bool, k: string, fs: seq<Field>): seq<Field> {
    if fs == [] then []
    else (if Tied(less, k, fs[0].key) then [fs[0]] else []) + TiedWith(less, k, fs[1..])
  }

  lemma {:induction false} TiedAppend(less: (string, string) -> bool, k: string, a: seq<Field>, b: seq<Field>)
    ensures TiedWith(less, k, a + b) == TiedWith(less, k, a) + TiedWith(less, k, b)
  {
    hide Tied;
    if a == [] {
      assert a + b == b;
    } else {
      var rest := a[1..];
      assert (a + b)[0] == a[0] && (a + b)[1..] == rest + b;
      TiedAppend(less, k, rest, b);
      var head := if Tied(less, k, a[0].key) then [a[0]] else [];
      assert head + (TiedWith(less, k, rest) + TiedWith(less, k, b))
        == (head + TiedWith(less, k, rest)) + TiedWith(less, k, b);
    }
  }

  lemma {:induction false} TiedElements(less: (string, string) -> bool, k: string, fs: seq<Field>)
    ensures forall f :: f in TiedWith(less, k, fs) <==> f in fs && Tied(less, k, f.key)
    ensures DistinctKeys(fs) ==> DistinctKeys(TiedWith(less, k, fs))
  {
    hide Tied;
    if fs != [] {
      TiedElements(less, k, fs[1..]);
      assert fs == [fs[0]] + fs[1..];
      if DistinctKeys(fs) {
        assert NewKey(fs[0].key, TiedWith(less, k, fs[1..]));
        ConsDistinct(fs[0], TiedWith(less, k, fs[1..]));
      }
    }
  }

  /** Inserting puts an entry after all that are tied with it. */
  lemma {:induction false} InsertKeepsTied(less: (string, string) -> bool, k: string, f: Field, fs: seq<Field>)
    requires WeakOrder(less) && Ordered(less, fs)
    ensures TiedWith(less, k, Insert(less, f, fs)) == TiedWith(less, k, fs) + TiedWith(less, k, [f])
  {
    if fs == [] {
      assert [] + TiedWith(less, k, [f]) == TiedWith(less, k, [f]);
    } else if less(f.key, fs[0].key) {
      InsertFirst(less, k, f, fs);
    } else {
      TailOrdered(less, fs);
      hide WeakOrder, Ordered, Tied;
      InsertKeepsTied(less, k, f, fs[1..]);
      TiedAppend(less, k, [fs[0]], fs[1..]);
      TiedAppend(less, k, [fs[0]], Insert(less, f, fs[1..]));
      assert fs == [fs[0]] + fs[1..];
    }
  }

  lemma TiedOne(less: (string, string) -> bool, k: string, f: Field)
    ensures TiedWith(less, k, [f]) == if Tied(less, k, f.key) then [f] else []
  {
    hide Tied;
    assert [f][1..] == [];
  }

  lemma InsertFirst(less: (string, string) -> bool, k: string, f: Field, fs: seq<Field>)
    requires WeakOrder(less) && Ordered(less, fs) && fs != [] && less(f.key, fs[0].key)
    ensures TiedWith(less, k, [f] + fs) == TiedWith(less, k, fs) + TiedWith(less, k, [f])
  {
    hide *;
    TiedAppend(less, k, [f], fs);
    TiedOne(less, k, f);
    if Tied(less, k, f.key) { NoneTied(less, k, f, fs); }
  }

  lemma TailOrdered(less: (string, string) -> bool, fs: seq<Field>)
    requires Ordered(less, fs) && fs != []
    ensures Ordered(less, fs[1..])
  {
  }

  lemma NoneTied(less: (string, string) -> bool, k: string, f: Field, fs: seq<Field>)
    requires WeakOrder(less) && Ordered(less, fs) && fs != [] && less(f.key, fs[0].key) && Tied(less, k, f.key)
    ensures TiedWith(less, k, fs) == []
  {
    hide TiedWith;
    TiedElements(less, k, fs);
    forall g | g in fs ensures !Tied(less, k, g.key) {
      assert less(f.key, g.key);
    }
    SomeEntry(TiedWith(less, k, fs));
  }

  /** The sort is stable: entries with tied keys keep their order. */
  lemma {:induction false} SortKeepsTied(less: (string, string) -> bool, k: string, fs: seq<Field>)
    requires WeakOrder(less)
    ensures TiedWith(less, k, SortByKey(less, fs)) == TiedWith(less, k, fs)
  {
    hide TiedWith, WeakOrder;
    if fs != [] {
      var front, last := fs[..|fs| - 1], fs[|fs| - 1];
      SortKeepsTied(less, k, front);
      SortOrders(less, front);
      InsertKeepsTied(less, k, last, SortByKey(less, front));
      TiedAppend(less, k, front, [last]);
      assert fs == front + [last];
    } else {
      assert SortByKey(less, fs) == fs;
    }
  }

  function Reverse(fs: seq<Field>): seq<Field> {
    if fs == [] then [] else Reverse(fs[1..]) + [fs[0]]
  }

  lemma {:induction false} ReverseAt(fs: seq<Field>)
    ensures |Reverse(fs)| == |fs|
    ensures forall i :: 0 <= i < |fs| ==> Reverse(fs)[i] == fs[|fs| - 1 - i]
  {
    if fs != [] { ReverseAt(fs[1..]); }
  }

  lemma {:induction false} TiedOfReverse(less: (string, string) -> bool, k: string, fs: seq<Field>)
    ensures TiedWith(less, k, Reverse(fs)) == Reverse(TiedWith(less, k, fs))
  {
    hide Tied;
    if fs != [] {
      TiedOfReverse(less, k, fs[1..]);
      TiedAppend(less, k, Reverse(fs[1..]), [fs[0]]);
      ReverseCons(less, k, fs);
    }
  }

  lemma ReverseCons(less: (string, string) -> bool, k: string, fs: seq<Field>)
    requires fs != []
    ensures Reverse(TiedWith(less, k, fs)) == Reverse(TiedWith(less, k, fs[1..])) + TiedWith(less, k, [fs[0]])
  {
    hide Tied;
    var rest := TiedWith(less, k, fs[1..]);
    assert [fs[0]][1..] == [];
    if Tied(less, k, fs[0].key) {
      assert ([fs[0]] + rest)[1..] == rest;
    } else {
      assert [] + rest == rest;
      assert Reverse(rest) + [] == Reverse(rest);
    }
  }

  /** Entries with a tie among them sort otherwise when they come in reverse. */
  lemma ReversedSortsApart(less: (string, string) -> bool, fs: seq<Field>)
    requires WeakOrder(less) && DistinctKeys(fs) && !Untied(less, fs)
    ensures SortByKey(less, Reverse(fs)) != SortByKey(less, fs)
  {
    hide SortByKey, TiedWith, Reverse;
    var i, j :| 0 <= i < j < |fs| && Tied(less, fs[i].key, fs[j].key);
    var k := fs[i].key;
    var tied := TiedWith(less, k, fs);
    TiedElements(less, k, fs);
    assert fs[i] in tied && fs[j] in tied && fs[i] != fs[j];
    assert tied[0] != tied[|tied| - 1];
    ReverseAt(tied);
    SortKeepsTied(less, k, fs);
    SortKeepsTied(less, k, Reverse(fs));
    TiedOfReverse(less, k, fs);
  }

  lemma ReversedEqual(fs: seq<Field>)
    requires WellFormed(Obj(fs))
    ensures WellFormed(Obj(Reverse(fs))) && DeepEqual(Obj(fs), Obj(Reverse(fs)))
  {
    hide Reverse;
    var gs := Reverse(fs);
    ReverseAt(fs);
    forall i | 0 <= i < |fs| ensures fs[i] in gs {
      assert gs[|fs| - 1 - i] == fs[i];
    }
    forall i | 0 <= i < |fs| ensures DeepEqual(fs[i].value, fs[i].value) { DeepEqualReflexive(fs[i].value); }
    hide DeepEqual;
    SameEntriesEqual(fs, fs, gs);
  }

  /** The entries of an object in reverse: the same object, and with a tie among its own
      keys another canonical form. */
  lemma ReversedObject(less: (string, string) -> bool, fs: seq<Field>)
    requires WeakOrder(less) && DistinctKeys(fs) && !Untied(less, fs)
    ensures Canonicalize(less, Obj(fs)) != Canonicalize(less, Obj(Reverse(fs)))
  {
    hide WeakOrder, SortByKey, Reverse, Tied;
    ReverseAt(fs);
    var cs := CanonicalFields(less, fs);
    ReverseAt(cs);
    assert CanonicalFields(less, Reverse(fs)) == Reverse(cs);
    ReversedSortsApart(less, cs);
  }

  lemma ChildEqual(fs: seq<Field>, i: nat, w: Json)
    requires WellFormed(Obj(fs)) && i < |fs| && WellFormed(w) && DeepEqual(fs[i].value, w)
    ensures var b := Obj(fs[i := Field(fs[i].key, w)]); WellFormed(b) && DeepEqual(Obj(fs), b)
  {
    var gs := fs[i := Field(fs[i].key, w)];
    forall j | 0 <= j < |fs| ensures DeepEqual(fs[j].value, gs[j].value) { DeepEqualReflexive(fs[j].value); }
    hide DeepEqual;
    SameEntriesEqual(fs, gs, gs);
  }

  /** Another canonical form of one child is another canonical form of the object. */
  lemma ChildForm(less: (string, string) -> bool, fs: seq<Field>, i: nat, w: Json)
    requires DistinctKeys(fs) && i < |fs| && Canonicalize(less, fs[i].value) != Canonicalize(less, w)
    ensures Canonicalize(less, Obj(fs)) != Canonicalize(less, Obj(fs[i := Field(fs[i].key, w)]))
  {
    var gs := fs[i := Field(fs[i].key, w)];
    var ca, cb := CanonicalFields(less, fs), CanonicalFields(less, gs);
    assert Canonicalize(less, Obj(fs)) == Obj(SortByKey(less, ca));
    assert Canonicalize(less, Obj(gs)) == Obj(SortByKey(less, cb));
    hide SortByKey, Canonicalize;
    SortSame(less, ca);
    SortSame(less, cb);
    assert ca[i] in ca;
    assert forall j :: 0 <= j < |cb| && j != i ==> cb[j].key != ca[i].key;
    assert ca[i] !in cb;
  }

  /** A value with a tie anywhere has a deeply equal one with another canonical form. */
  lemma {:induction false} OtherForm(less: (string, string) -> bool, a: Json) returns (b: Json)
    requires WeakOrder(less) && WellFormed(a) && !NoTies(less, a)
    ensures WellFormed(b) && DeepEqual(a, b) && Canonicalize(less, a) != Canonicalize(less, b)
    decreases a
  {
    hide WeakOrder, SortByKey;
    if a.Arr? {
      var i :| 0 <= i < |a.items| && !NoTies(less, a.items[i]);
      var w := OtherForm(less, a.items[i]);
      b := Arr(a.items[i := w]);
      forall j | 0 <= j < |a.items| ensures DeepEqual(a.items[j], b.items[j]) { DeepEqualReflexive(a.items[j]); }
      assert Canonicalize(less, a).items[i] != Canonicalize(less, b).items[i];
    } else if !Untied(less, a.fields) {
      b := Obj(Reverse(a.fields));
      ReversedEqual(a.fields);
      ReversedObject(less, a.fields);
    } else {
      var i :| 0 <= i < |a.fields| && !NoTies(less, a.fields[i].value);
      var w := OtherForm(less, a.fields[i].value);
      b := Obj(a.fields[i := Field(a.fields[i].key, w)]);
      ChildEqual(a.fields, i, w);
      ChildForm(less, a.fields, i, w);
    }
  }

  /** The exact condition on a value: its canonical form is that of every value deeply
      equal to it if and only if no object in it, at any depth, has two tied keys. */
  lemma NoTiesIffOneForm(less: (string, string) -> bool, a: Json)
    requires WeakOrder(less) && WellFormed(a)
    ensures NoTies(less, a) <==>
      forall b :: WellFormed(b) && DeepEqual(a, b) ==> Canonicalize(less, a) == Canonicalize(less, b)
  {
    hide WeakOrder, WellFormed, NoTies, Canonicalize, DeepEqual;
    if NoTies(less, a) {
      forall b | WellFormed(b) && DeepEqual(a, b) ensures Canonicalize(less, a) == Canonicalize(less, b) {
        NoTiesSuffices(less, a, b);
      }
    } else {
      var b := OtherForm(less, a);
    }
  }

  /** Under an order that tells every two keys apart no value has ties, so there the
      canonical form decides deep equality of all values. */
  lemma {:induction false} StrictHasNoTies(less: (string, string) -> bool, a: Json)
    requires StrictOrder(less) && WellFormed(a)
    ensures NoTies(less, a)
    decreases a
  {
    match a
    case Arr(xs) =>
      forall i | 0 <= i < |xs| ensures NoTies(less, xs[i]) { StrictHasNoTies(less, xs[i]); }
    case Obj(fs) =>
      forall i | 0 <= i < |fs| ensures NoTies(less, fs[i].value) { StrictHasNoTies(less, fs[i].value); }
    case _ =>
  }

  lemma SortOfTied(less: (string, string) -> bool, f: Field, g: Field)
    requires !less(g.key, f.key)
    ensures SortByKey(less, [f, g]) == [f, g]
  {
    hide Canonicalize;
    assert [f, g][..1] == [f] && [f][..0] == [];
    assert SortByKey(less, []) == [];
    assert Insert(less, f, []) == [f] && Insert(less, g, []) == [g];
    assert SortByKey(less, [f]) == [f];
    assert [f][1..] == [];
    assert Insert(less, g, [f]) == [f] + Insert(less, g, []);
  }

  lemma CanonicalOfTied(less: (string, string) -> bool, k: string, l: string)
    requires Tied(less, k, l)
    ensures Canonicalize(less, Obj([Field(k, Null), Field(l, Null)])) == Obj([Field(k, Null), Field(l, Null)])
  {
    hide SortByKey, Insert;
    var f, g := Field(k, Null), Field(l, Null);
    assert CanonicalFields(less, [f, g]) == [f, g];
    SortOfTied(less, f, g);
  }

  lemma SwappedAreEqual(k: string, l: string)
    requires k != l
    ensures var a, b := Obj([Field(k, Null), Field(l, Null)]), Obj([Field(l, Null), Field(k, Null)]);
      WellFormed(a) && WellFormed(b) && DeepEqual(a, b) && a != b
  {
    var fs, gs := [Field(k, Null), Field(l, Null)], [Field(l, Null), Field(k, Null)];
    GetFinds(gs, 0);
    GetFinds(gs, 1);
    assert fs[0] == gs[1] && fs[1] == gs[0];
  }

  /** Two keys the order cannot tell apart keep the order they came in, so one object
      has two canonical forms. */
  lemma TiedKeysKeepTheirOrder(less: (string, string) -> bool, k: string, l: string)
    requires k != l && Tied(less, k, l)
    ensures var a, b := Obj([Field(k, Null), Field(l, Null)]), Obj([Field(l, Null), Field(k, Null)]);
      WellFormed(a) && WellFormed(b) && DeepEqual(a, b) && Canonicalize(less, a) != Canonicalize(less, b)
  {
    hide Canonicalize, DeepEqual, WellFormed;
    SwappedAreEqual(k, l);
    CanonicalOfTied(less, k, l);
    CanonicalOfTied(less, l, k);
  }

  /** The same said of the order: the canonical form decides deep equality of all values
      exactly when no two keys are tied. */
  lemma StrictOrderIsNeeded(less: (string, string) -> bool)
    requires WeakOrder(less)
    ensures StrictOrder(less) <==> forall a, b :: WellFormed(a) && WellFormed(b) ==>
      (Canonicalize(less, a) == Canonicalize(less, b) <==> DeepEqual(a, b))
  {
    hide Canonicalize, DeepEqual, WellFormed, WeakOrder, NoTies;
    if StrictOrder(less) {
      forall a, b | WellFormed(a) && WellFormed(b)
        ensures Canonicalize(less, a) == Canonicalize(less, b) <==> DeepEqual(a, b)
      {
        StrictHasNoTies(less, a);
        CanonicalIffDeepEqual(less, a, b);
      }
    } else {
      var k, l :| k != l && !less(k, l) && !less(l, k);
      TiedKeysKeepTheirOrder(less, k, l);
    }
  }
}
