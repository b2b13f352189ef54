/** The bounded Starlark-to-Go value converter.

    The input is a heap graph: lists and dicts are shared by reference and may
    be cyclic.  The meaning of a value is the finite tree it unfolds to, if there
    is one.  The converter is a class whose budgets and active sets are updated in
    place; its methods are proved against the unfolding relation. */
module Converter {
  import opened Wrappers

  newtype byte = x: int | 0 <= x < 256

  type Bytes = seq<byte>

  /** The identity of a list or dict object. */
  type Ref = nat

  const MAX_DEPTH: int := 64
  const MAX_NODES: int := 10_000
  const MAX_STRING_BYTES: int := 0x4_0000
  const MAX_OUTPUT_BYTES: int := 0x10_0000

  datatype Value =
    | NoneValue
    | BoolValue(b: bool)
    | StringValue(s: Bytes)
    | IntValue(i: int)
    | FloatValue(bits: bv64)
    | ListValue(list: Ref)
    | TupleValue(elements: seq<Value>)
    | DictValue(dict: Ref)
    | OtherValue

  /** Every reference has contents, as every Go pointer the interpreter hands out
      does.  Nothing bounds the graph, and nothing excludes cycles. */
  datatype Heap = Heap(lists: Ref -> seq<Value>, dicts: Ref -> seq<(Value, Value)>)

  datatype GoValue =
    | GoNil
    | GoBool(b: bool)
    | GoString(s: Bytes)
    | GoInt64(i: int)
    | GoFloat64(bits: bv64)
    | GoSlice(items: seq<GoValue>)
    | GoMap(entries: map<Bytes, GoValue>)

  datatype Error =
    | Timeout
    | NodeLimit | OutputLimit | StringLimit | DepthLimit
    | CyclicList | CyclicDict | KeyNotString | UnsupportedType | IntOutOfRange
  {
    /** Errors that blame the shape of the value rather than its size. */
    predicate Structural() {
      CyclicList? || CyclicDict? || KeyNotString? || UnsupportedType? || IntOutOfRange?
    }
  }

  datatype Result<+T> = Ok(value: T) | Err(error: Error)

  // ---------------------------------------------------------------- meaning

  /** A finite tree of supported values. */
  datatype Tree =
    | NilTree
    | BoolTree(b: bool)
    | StringTree(s: Bytes)
    | IntTree(i: int)
    | FloatTree(bits: bv64)
    | SeqTree(items: seq<Tree>)
    | MapTree(keys: seq<Bytes>, vals: seq<Tree>)

  predicate IsInt64(i: int) {
    -0x8000_0000_0000_0000 <= i < 0x8000_0000_0000_0000
  }

  predicate StringKeys(entries: seq<(Value, Value)>, keys: seq<Bytes>) {
    |entries| == |keys| && forall i | 0 <= i < |keys| :: entries[i].0 == StringValue(keys[i])
  }

  function Values(entries: seq<(Value, Value)>): (vs: seq<Value>)
    ensures |vs| == |entries|
  {
    seq(|entries|, i requires 0 <= i < |entries| => entries[i].1)
  }

  /** `v` unfolds to the finite tree `t`. */
  ghost predicate Unfolds(h: Heap, v: Value, t: Tree)
    decreases t
  {
    match v
    case NoneValue => t == NilTree
    case BoolValue(b) => t == BoolTree(b)
    case StringValue(s) => t == StringTree(s)
    case IntValue(i) => IsInt64(i) && t == IntTree(i)
    case FloatValue(bits) => t == FloatTree(bits)
    case ListValue(r) =>
      t.SeqTree? && |h.lists(r)| == |t.items| &&
      forall i | 0 <= i < |t.items| :: Unfolds(h, h.lists(r)[i], t.items[i])
    case TupleValue(elements) =>
      t.SeqTree? && |elements| == |t.items| &&
      forall i | 0 <= i < |t.items| :: Unfolds(h, elements[i], t.items[i])
    case DictValue(r) =>
      t.MapTree? && StringKeys(h.dicts(r), t.keys) && |h.dicts(r)| == |t.vals| &&
      forall i | 0 <= i < |t.vals| :: Unfolds(h, Values(h.dicts(r))[i], t.vals[i])
    case OtherValue => false
  }

  ghost predicate UnfoldAll(h: Heap, vs: seq<Value>, ts: seq<Tree>) {
    |vs| == |ts| && forall i | 0 <= i < |ts| :: Unfolds(h, vs[i], ts[i])
  }

  /** As `Unfolds`, but no path from `v` may enter a list of `al` or a dict of `ad`,
      nor a container it is already inside. */
  ghost predicate UnfoldsOff(h: Heap, v: Value, t: Tree, al: set<Ref>, ad: set<Ref>)
    decreases t
  {
    match v
    case NoneValue => t == NilTree
    case BoolValue(b) => t == BoolTree(b)
    case StringValue(s) => t == StringTree(s)
    case IntValue(i) => IsInt64(i) && t == IntTree(i)
    case FloatValue(bits) => t == FloatTree(bits)
    case ListValue(r) =>
      r !in al && t.SeqTree? && |h.lists(r)| == |t.items| &&
      forall i | 0 <= i < |t.items| :: UnfoldsOff(h, h.lists(r)[i], t.items[i], al + {r}, ad)
    case TupleValue(elements) =>
      t.SeqTree? && |elements| == |t.items| &&
      forall i | 0 <= i < |t.items| :: UnfoldsOff(h, elements[i], t.items[i], al, ad)
    case DictValue(r) =>
      r !in ad && t.MapTree? && StringKeys(h.dicts(r), t.keys) && |h.dicts(r)| == |t.vals| &&
      forall i | 0 <= i < |t.vals| :: UnfoldsOff(h, Values(h.dicts(r))[i], t.vals[i], al, ad + {r})
    case OtherValue => false
  }

  ghost predicate UnfoldAllOff(h: Heap, vs: seq<Value>, ts: seq<Tree>, al: set<Ref>, ad: set<Ref>) {
    |vs| == |ts| && forall i | 0 <= i < |ts| :: UnfoldsOff(h, vs[i], ts[i], al, ad)
  }

  /** The Go value a tree stands for. */
  function ToGo(t: Tree): GoValue
    decreases t, 1
  {
    match t
    case NilTree => GoNil
    case BoolTree(b) => GoBool(b)
    case StringTree(s) => GoString(s)
    case IntTree(i) => GoInt64(i)
    case FloatTree(bits) => GoFloat64(bits)
    case SeqTree(items) => GoSlice(ToGoAll(items))
    case MapTree(keys, vals) => GoMap(if |keys| == |vals| then ToGoEntries(keys, vals) else map[])
  }

  function ToGoAll(ts: seq<Tree>): (r: seq<GoValue>)
    ensures |r| == |ts|
    decreases ts, 0
  {
    if ts == [] then [] else ToGoAll(ts[..|ts| - 1]) + [ToGo(ts[|ts| - 1])]
  }

  function ToGoEntries(keys: seq<Bytes>, vals: seq<Tree>): map<Bytes, GoValue>
    requires |keys| == |vals|
    decreases vals, 0
  {
    if keys == [] then map[] else
      var n := |keys| - 1;
      ToGoEntries(keys[..n], vals[..n])[keys[n] := ToGo(vals[n])]
  }

  // ---------------------------------------------------------------- measures

  function SeqOverhead(size: nat): nat {
    if size == 0 then 2 else size + 1
  }

  function DictOverhead(size: nat): nat {
    if size == 0 then 2 else 2 * size + 1
  }

  function KeyBytes(keys: seq<Bytes>): nat {
    if keys == [] then 0 else KeyBytes(keys[..|keys| - 1]) + |keys[|keys| - 1]|
  }

  /** Values plus dict keys. */
  function Nodes(t: Tree): nat
    decreases t, 1
  {
    match t
    case SeqTree(items) => 1 + NodesAll(items)
    case MapTree(keys, vals) => 1 + |keys| + NodesAll(vals)
    case _ => 1
  }

  function NodesAll(ts: seq<Tree>): nat
    decreases ts, 0
  {
    if ts == [] then 0 else NodesAll(ts[..|ts| - 1]) + Nodes(ts[|ts| - 1])
  }

  /** The values alone: the calls of the conversion. */
  function Visits(t: Tree): nat
    decreases t, 1
  {
    match t
    case SeqTree(items) => 1 + VisitsAll(items)
    case MapTree(_, vals) => 1 + VisitsAll(vals)
    case _ => 1
  }

  function VisitsAll(ts: seq<Tree>): nat
    decreases ts, 0
  {
    if ts == [] then 0 else VisitsAll(ts[..|ts| - 1]) + Visits(ts[|ts| - 1])
  }

  function Cost(t: Tree): nat
    decreases t, 1
  {
    match t
    case NilTree => 4
    case BoolTree(_) => 5
    case StringTree(s) => |s|
    case IntTree(_) => 20
    case FloatTree(_) => 24
    case SeqTree(items) => SeqOverhead(|items|) + CostAll(items)
    case MapTree(keys, vals) => DictOverhead(|keys|) + KeyBytes(keys) + CostAll(vals)
  }

  function CostAll(ts: seq<Tree>): nat
    decreases ts, 0
  {
    if ts == [] then 0 else CostAll(ts[..|ts| - 1]) + Cost(ts[|ts| - 1])
  }

  function Max(a: nat, b: nat): nat {
    if a < b then b else a
  }

  /** How many containers the deepest path of `t` enters. */
  function Depth(t: Tree): nat
    decreases t, 1
  {
    match t
    case SeqTree(items) => 1 + DepthAll(items)
    case MapTree(_, vals) => 1 + DepthAll(vals)
    case _ => 0
  }

  function DepthAll(ts: seq<Tree>): nat
    decreases ts, 0
  {
    if ts == [] then 0 else Max(DepthAll(ts[..|ts| - 1]), Depth(ts[|ts| - 1]))
  }

  predicate ShortStrings(t: Tree)
    decreases t
  {
    match t
    case StringTree(s) => |s| <= MAX_STRING_BYTES
    case SeqTree(items) => forall i | 0 <= i < |items| :: ShortStrings(items[i])
    case MapTree(keys, vals) =>
      && (forall i | 0 <= i < |keys| :: |keys[i]| <= MAX_STRING_BYTES)
      && (forall i | 0 <= i < |vals| :: ShortStrings(vals[i]))
    case _ => true
  }

  /** `t`, entered under `depth` containers with these totals already spent, stays
      within all four limits. */
  predicate Fits(t: Tree, depth: nat, nodes: int, bytes: int) {
    && nodes + Nodes(t) <= MAX_NODES
    && bytes + Cost(t) <= MAX_OUTPUT_BYTES
    && depth + Depth(t) <= MAX_DEPTH
    && ShortStrings(t)
  }

  /** How the counts of nodes, values and levels grow, entry by entry. */
  lemma Growth(ts: seq<Tree>, keys: seq<Bytes>, key: Bytes, t: Tree)
    requires |keys| == |ts|
    ensures forall u: Tree :: !u.SeqTree? && !u.MapTree? ==> Nodes(u) == Visits(u) == 1 && Depth(u) == 0
    ensures Visits(SeqTree([])) == Visits(MapTree([], [])) == 1
    ensures Visits(SeqTree(ts + [t])) == Visits(SeqTree(ts)) + Visits(t)
    ensures Visits(MapTree(keys + [key], ts + [t])) == Visits(MapTree(keys, ts)) + Visits(t)
    ensures Nodes(SeqTree([])) == Nodes(MapTree([], [])) == 1 && Depth(SeqTree([])) == Depth(MapTree([], [])) == 1
    ensures Nodes(SeqTree(ts + [t])) == Nodes(SeqTree(ts)) + Nodes(t)
    ensures Nodes(MapTree(keys + [key], ts + [t])) == Nodes(MapTree(keys, ts)) + 1 + Nodes(t)
    ensures Depth(SeqTree(ts + [t])) == Max(Depth(SeqTree(ts)), 1 + Depth(t))
    ensures Depth(MapTree(keys + [key], ts + [t])) == Max(Depth(MapTree(keys, ts)), 1 + Depth(t))
  {
    assert (ts + [t])[..|ts|] == ts;
  }

  /** The text that the charged bytes estimate: compact JSON with every scalar at its widest and
      strings without quotes. */
  function Layout(t: Tree): string
    decreases t, 1
  {
    match t
    case NilTree => "null"
    case BoolTree(_) => "false"
    case StringTree(s) => Chars(s)
    case IntTree(_) => "-9223372036854775808"
    case FloatTree(_) => "-1.7976931348623157e+308"
    case SeqTree(items) => "[" + Items(items) + "]"
    case MapTree(keys, vals) => "{" + (if |keys| == |vals| then Entries(keys, vals) else "") + "}"
  }

  function Chars(s: Bytes): string {
    seq(|s|, i requires 0 <= i < |s| => s[i] as int as char)
  }

  function Items(ts: seq<Tree>): string
    decreases ts, 0
  {
    if ts == [] then ""
    else Items(ts[..|ts| - 1]) + (if |ts| > 1 then "," else "") + Layout(ts[|ts| - 1])
  }

  function Entries(keys: seq<Bytes>, vals: seq<Tree>): string
    requires |keys| == |vals|
    decreases vals, 0
  {
    if keys == [] then "" else
      var n := |keys| - 1;
      Entries(keys[..n], vals[..n]) + (if n > 0 then "," else "") + Chars(keys[n]) + ":" + Layout(vals[n])
  }

  /** As the converter builds them: a key for every value. */
  predicate Paired(t: Tree)
    decreases t
  {
    match t
    case SeqTree(items) => forall i | 0 <= i < |items| :: Paired(items[i])
    case MapTree(keys, vals) => |keys| == |vals| && forall i | 0 <= i < |vals| :: Paired(vals[i])
    case _ => true
  }

  /** What a value is charged is the length of that text. */
  lemma {:induction false} CostIsLength(t: Tree)
    requires Paired(t)
    ensures Cost(t) == |Layout(t)|
    decreases t, 1
  {
    match t
    case SeqTree(items) => ItemsLength(items);
    case MapTree(keys, vals) => EntriesLength(keys, vals);
    case _ =>
  }

  lemma {:induction false} ItemsLength(ts: seq<Tree>)
    requires forall i | 0 <= i < |ts| :: Paired(ts[i])
    ensures |Items(ts)| == CostAll(ts) + if ts == [] then 0 else |ts| - 1
    decreases ts, 0
  {
    if ts != [] {
      ItemsLength(ts[..|ts| - 1]);
      CostIsLength(ts[|ts| - 1]);
    }
  }

  lemma {:induction false} EntriesLength(keys: seq<Bytes>, vals: seq<Tree>)
    requires |keys| == |vals| && forall i | 0 <= i < |vals| :: Paired(vals[i])
    ensures |Entries(keys, vals)| == KeyBytes(keys) + CostAll(vals) + if keys == [] then 0 else 2 * |keys| - 1
    decreases vals, 0
  {
    if keys != [] {
      var n := |keys| - 1;
      EntriesLength(keys[..n], vals[..n]);
      CostIsLength(vals[n]);
    }
  }

  /** The four limits: 64 levels, 10,000 nodes, 256 KiB a string and 1 MiB of text. */
  lemma FitsLimits(t: Tree)
    requires Paired(t)
    ensures Fits(t, 0, 0, 0) <==>
      Depth(t) <= 64 && Nodes(t) <= 10_000 && |Layout(t)| <= 1_048_576
      && forall s | Occurs(s, t) :: |s| <= 262_144
  {
    CostIsLength(t);
    StringsAreShort(t);
  }

  /** `s` is a string or a dict key somewhere in `t`. */
  ghost predicate Occurs(s: Bytes, t: Tree)
    decreases t
  {
    match t
    case StringTree(u) => s == u
    case SeqTree(items) => exists i :: 0 <= i < |items| && Occurs(s, items[i])
    case MapTree(keys, vals) => s in keys || exists i :: 0 <= i < |vals| && Occurs(s, vals[i])
    case _ => false
  }

  lemma {:induction false} StringsAreShort(t: Tree)
    ensures ShortStrings(t) <==> forall s | Occurs(s, t) :: |s| <= 262_144
    decreases t
  {
    match t
    case StringTree(s) => assert Occurs(s, t);
    case SeqTree(items) =>
      forall i, s | 0 <= i < |items| && Occurs(s, items[i]) ensures Occurs(s, t) {}
      forall i | 0 <= i < |items| ensures ShortStrings(items[i]) <==> forall s | Occurs(s, items[i]) :: |s| <= 262_144 {
        StringsAreShort(items[i]);
      }
    case MapTree(keys, vals) =>
      forall i | 0 <= i < |keys| ensures Occurs(keys[i], t) {}
      forall i, s | 0 <= i < |vals| && Occurs(s, vals[i]) ensures Occurs(s, t) {}
      forall i | 0 <= i < |vals| ensures ShortStrings(vals[i]) <==> forall s | Occurs(s, vals[i]) :: |s| <= 262_144 {
        StringsAreShort(vals[i]);
      }
    case _ =>
  }

  lemma PrefixMeasures(ts: seq<Tree>, n: nat)
    requires n <= |ts|
    ensures NodesAll(ts[..n]) + |ts| - n <= NodesAll(ts)
    ensures CostAll(ts[..n]) <= CostAll(ts)
    ensures DepthAll(ts[..n]) <= DepthAll(ts)
    decreases |ts|
  {
    if n == |ts| {
      assert ts[..n] == ts;
    } else {
      var front := ts[..|ts| - 1];
      PrefixMeasures(front, n);
      assert front[..n] == ts[..n];
    }
  }

  lemma PrefixKeyBytes(keys: seq<Bytes>, n: nat)
    requires n <= |keys|
    ensures KeyBytes(keys[..n]) <= KeyBytes(keys)
    decreases |keys|
  {
    if n == |keys| {
      assert keys[..n] == keys;
    } else {
      PrefixKeyBytes(keys[..|keys| - 1], n);
      assert keys[..|keys| - 1][..n] == keys[..n];
    }
  }

  /** The measures of the first `n + 1` trees in terms of the first `n`. */
  lemma StepMeasures(ts: seq<Tree>, n: nat)
    requires n < |ts|
    ensures NodesAll(ts[..n + 1]) == NodesAll(ts[..n]) + Nodes(ts[n])
    ensures CostAll(ts[..n + 1]) == CostAll(ts[..n]) + Cost(ts[n])
    ensures DepthAll(ts[..n + 1]) == Max(DepthAll(ts[..n]), Depth(ts[n]))
    ensures NodesAll(ts[..n]) + Nodes(ts[n]) + |ts| - n - 1 <= NodesAll(ts)
    ensures CostAll(ts[..n]) + Cost(ts[n]) <= CostAll(ts)
    ensures Depth(ts[n]) <= DepthAll(ts)
  {
    assert ts[..n + 1][..n] == ts[..n];
    PrefixMeasures(ts, n + 1);
  }

  lemma StepKeyBytes(keys: seq<Bytes>, n: nat)
    requires n < |keys|
    ensures KeyBytes(keys[..n + 1]) == KeyBytes(keys[..n]) + |keys[n]| <= KeyBytes(keys)
  {
    assert keys[..n + 1][..n] == keys[..n];
    PrefixKeyBytes(keys, n + 1);
  }

  // ---------------------------------------------------------------- facts about unfolding

  /** What a value unfolds to has a key for every value. */
  lemma {:induction false} UnfoldsPaired(h: Heap, v: Value, t: Tree)
    requires Unfolds(h, v, t)
    ensures Paired(t)
    decreases t
  {
    match v
    case ListValue(r) => forall i | 0 <= i < |t.items| ensures Paired(t.items[i]) {
      UnfoldsPaired(h, h.lists(r)[i], t.items[i]);
    }
    case TupleValue(elements) => forall i | 0 <= i < |t.items| ensures Paired(t.items[i]) {
      UnfoldsPaired(h, elements[i], t.items[i]);
    }
    case DictValue(r) => forall i | 0 <= i < |t.vals| ensures Paired(t.vals[i]) {
      UnfoldsPaired(h, Values(h.dicts(r))[i], t.vals[i]);
    }
    case _ =>
  }

  /** A value unfolds to at most one tree. */
  lemma {:induction false} UnfoldsOffUnique(h: Heap, v: Value, t: Tree, u: Tree, al: set<Ref>, ad: set<Ref>)
    requires UnfoldsOff(h, v, t, al, ad) && UnfoldsOff(h, v, u, al, ad)
    ensures t == u
    decreases t, 1
  {
    match v
    case ListValue(r) => UnfoldAllOffUnique(h, h.lists(r), t.items, u.items, al + {r}, ad);
    case TupleValue(elements) => UnfoldAllOffUnique(h, elements, t.items, u.items, al, ad);
    case DictValue(r) =>
      UnfoldAllOffUnique(h, Values(h.dicts(r)), t.vals, u.vals, al, ad + {r});
      assert forall i | 0 <= i < |t.keys| :: StringValue(t.keys[i]) == StringValue(u.keys[i]);
      assert t.keys == u.keys;
    case _ =>
  }

  lemma {:induction false} UnfoldAllOffUnique(h: Heap, vs: seq<Value>, ts: seq<Tree>, us: seq<Tree>, al: set<Ref>,
                                              ad: set<Ref>)
    requires UnfoldAllOff(h, vs, ts, al, ad) && UnfoldAllOff(h, vs, us, al, ad)
    ensures ts == us
    decreases ts, 0
  {
    forall i | 0 <= i < |ts| ensures ts[i] == us[i] {
      UnfoldsOffUnique(h, vs[i], ts[i], us[i], al, ad);
    }
  }

  lemma {:induction false} UnfoldsOffUnfolds(h: Heap, v: Value, t: Tree, al: set<Ref>, ad: set<Ref>)
    requires UnfoldsOff(h, v, t, al, ad)
    ensures Unfolds(h, v, t)
    decreases t, 1
  {
    match v
    case ListValue(r) => UnfoldAllOffUnfoldAll(h, h.lists(r), t.items, al + {r}, ad);
    case TupleValue(elements) => UnfoldAllOffUnfoldAll(h, elements, t.items, al, ad);
    case DictValue(r) => UnfoldAllOffUnfoldAll(h, Values(h.dicts(r)), t.vals, al, ad + {r});
    case _ =>
  }

  lemma {:induction false} UnfoldAllOffUnfoldAll(h: Heap, vs: seq<Value>, ts: seq<Tree>, al: set<Ref>, ad: set<Ref>)
    requires UnfoldAllOff(h, vs, ts, al, ad)
    ensures UnfoldAll(h, vs, ts)
    decreases ts, 0
  {
    forall i | 0 <= i < |ts| ensures Unfolds(h, vs[i], ts[i]) {
      UnfoldsOffUnfolds(h, vs[i], ts[i], al, ad);
    }
  }

  /** Every object of `al` and `ad` unfolds, if at all, only to trees above `size`. */
  ghost predicate Larger(h: Heap, al: set<Ref>, ad: set<Ref>, size: nat) {
    && (forall r, t | r in al && Unfolds(h, ListValue(r), t) :: size < Nodes(t))
    && (forall r, t | r in ad && Unfolds(h, DictValue(r), t) :: size < Nodes(t))
  }

  lemma {:induction false} UnfoldsUnique(h: Heap, v: Value, t: Tree, u: Tree)
    requires Unfolds(h, v, t) && Unfolds(h, v, u)
    ensures t == u
    decreases t
  {
    match v
    case ListValue(r) =>
      forall i | 0 <= i < |t.items| ensures t.items[i] == u.items[i] {
        UnfoldsUnique(h, h.lists(r)[i], t.items[i], u.items[i]);
      }
    case TupleValue(elements) =>
      forall i | 0 <= i < |t.items| ensures t.items[i] == u.items[i] {
        UnfoldsUnique(h, elements[i], t.items[i], u.items[i]);
      }
    case DictValue(r) =>
      forall i | 0 <= i < |t.vals| ensures t.vals[i] == u.vals[i] {
        UnfoldsUnique(h, Values(h.dicts(r))[i], t.vals[i], u.vals[i]);
      }
      assert forall i | 0 <= i < |t.keys| :: StringValue(t.keys[i]) == StringValue(u.keys[i]);
      assert t.keys == u.keys;
    case _ =>
  }

  /** Inside a container only smaller trees are met. */
  lemma LargerInside(h: Heap, v: Value, t: Tree, al: set<Ref>, ad: set<Ref>)
    requires Unfolds(h, v, t) && Larger(h, al, ad, Nodes(t))
    ensures v.ListValue? ==> v.list !in al && Larger(h, al + {v.list}, ad, NodesAll(t.items))
    ensures v.DictValue? ==> v.dict !in ad && Larger(h, al, ad + {v.dict}, NodesAll(t.vals))
    ensures v.TupleValue? ==> Larger(h, al, ad, NodesAll(t.items))
  {
    forall u | Unfolds(h, v, u) ensures u == t { UnfoldsUnique(h, v, t, u); }
    hide Unfolds;
  }

  /** A value with a finite unfolding never meets an active container: the active
      sets refuse nothing that has a meaning. */
  lemma {:induction false} UnfoldsAvoidsActive(h: Heap, v: Value, t: Tree, al: set<Ref>, ad: set<Ref>)
    requires Unfolds(h, v, t) && Larger(h, al, ad, Nodes(t))
    ensures UnfoldsOff(h, v, t, al, ad)
    decreases t, 1
  {
    hide Larger, NodesAll;
    LargerInside(h, v, t, al, ad);
    match v
    case ListValue(r) => UnfoldAllAvoidsActive(h, h.lists(r), t.items, al + {r}, ad);
    case TupleValue(elements) => UnfoldAllAvoidsActive(h, elements, t.items, al, ad);
    case DictValue(r) => UnfoldAllAvoidsActive(h, Values(h.dicts(r)), t.vals, al, ad + {r});
    case _ =>
  }

  lemma {:induction false} UnfoldAllAvoidsActive(h: Heap, vs: seq<Value>, ts: seq<Tree>, al: set<Ref>, ad: set<Ref>)
    requires UnfoldAll(h, vs, ts) && Larger(h, al, ad, NodesAll(ts))
    ensures UnfoldAllOff(h, vs, ts, al, ad)
    decreases ts, 0
  {
    forall i | 0 <= i < |ts| ensures UnfoldsOff(h, vs[i], ts[i], al, ad) {
      StepMeasures(ts, i);
      UnfoldsAvoidsActive(h, vs[i], ts[i], al, ad);
    }
  }

  /** The containers and values directly inside `v`. */
  function Children(h: Heap, v: Value): seq<Value> {
    match v
    case ListValue(r) => h.lists(r)
    case TupleValue(elements) => elements
    case DictValue(r) => Values(h.dicts(r))
    case _ => []
  }

  ghost predicate IsPath(h: Heap, path: seq<Value>) {
    path != [] && forall i | 0 < i < |path| :: path[i] in Children(h, path[i - 1])
  }

  lemma ChildUnfolds(h: Heap, v: Value, t: Tree, w: Value) returns (u: Tree)
    requires Unfolds(h, v, t) && w in Children(h, v)
    ensures Unfolds(h, w, u) && Nodes(u) < Nodes(t)
  {
    var kids := Children(h, v);
    var ts := if t.SeqTree? then t.items else t.vals;
    assert UnfoldAll(h, kids, ts);
    var i :| 0 <= i < |kids| && kids[i] == w;
    StepMeasures(ts, i);
    u := ts[i];
  }

  lemma {:induction false} PathShrinks(h: Heap, path: seq<Value>, t: Tree) returns (u: Tree)
    requires IsPath(h, path) && Unfolds(h, path[0], t)
    ensures Unfolds(h, path[|path| - 1], u)
    ensures Nodes(u) + |path| <= Nodes(t) + 1
    decreases |path|
  {
    if |path| == 1 {
      u := t;
    } else {
      var front := path[..|path| - 1];
      assert IsPath(h, front);
      var w := PathShrinks(h, front, t);
      u := ChildUnfolds(h, front[|front| - 1], w, path[|path| - 1]);
    }
  }

  /** Every reachable cycle leaves the value without an unfolding, so it is refused. */
  lemma CycleHasNoUnfolding(h: Heap, toCycle: seq<Value>, cycle: seq<Value>, t: Tree)
    requires IsPath(h, toCycle) && IsPath(h, cycle) && |cycle| > 1
    requires toCycle[|toCycle| - 1] == cycle[0] == cycle[|cycle| - 1]
    ensures !Unfolds(h, toCycle[0], t)
  {
    if Unfolds(h, toCycle[0], t) {
      var u := PathShrinks(h, toCycle, t);
      var w := PathShrinks(h, cycle, u);
      UnfoldsUnique(h, cycle[0], u, w);
    }
  }

  /** A rank for every list and dict; rank 0 leaves the object out. */
  datatype Ranks = Ranks(lists: Ref -> nat, dicts: Ref -> nat)

  /** `v` is of a supported type and leads only to containers ranked below `n`. */
  ghost predicate Below(v: Value, n: nat, k: Ranks) {
    match v
    case ListValue(r) => 0 < k.lists(r) < n
    case DictValue(r) => 0 < k.dicts(r) < n
    case TupleValue(elements) => forall w | w in elements :: Below(w, n, k)
    case IntValue(i) => IsInt64(i)
    case OtherValue => false
    case _ => true
  }

  ghost predicate AllBelow(vs: seq<Value>, n: nat, k: Ranks) {
    forall v | v in vs :: Below(v, n, k)
  }

  ghost predicate HasStringKeys(entries: seq<(Value, Value)>) {
    exists keys :: StringKeys(entries, keys)
  }

  /** Ranks fall along every edge, so the ranked part of the graph is acyclic. */
  ghost predicate Ranked(h: Heap, k: Ranks) {
    && (forall r | 0 < k.lists(r) :: AllBelow(h.lists(r), k.lists(r), k))
    && (forall r | 0 < k.dicts(r) :: AllBelow(Values(h.dicts(r)), k.dicts(r), k) && HasStringKeys(h.dicts(r)))
  }

  lemma {:induction false} RankedUnfolds(h: Heap, k: Ranks, v: Value, n: nat) returns (t: Tree)
    requires Ranked(h, k) && Below(v, n, k)
    ensures Unfolds(h, v, t)
    decreases n, v, 1
  {
    match v
    case NoneValue => t := NilTree;
    case BoolValue(b) => t := BoolTree(b);
    case StringValue(s) => t := StringTree(s);
    case IntValue(i) => t := IntTree(i);
    case FloatValue(bits) => t := FloatTree(bits);
    case ListValue(r) =>
      var ts := RankedUnfoldAll(h, k, h.lists(r), k.lists(r));
      t := SeqTree(ts);
    case TupleValue(elements) =>
      var ts := RankedUnfoldAll(h, k, elements, n);
      t := SeqTree(ts);
    case DictValue(r) =>
      var keys :| StringKeys(h.dicts(r), keys);
      var ts := RankedUnfoldAll(h, k, Values(h.dicts(r)), k.dicts(r));
      t := MapTree(keys, ts);
  }

  lemma {:induction false} RankedUnfoldAll(h: Heap, k: Ranks, vs: seq<Value>, n: nat) returns (ts: seq<Tree>)
    requires Ranked(h, k) && AllBelow(vs, n, k)
    ensures UnfoldAll(h, vs, ts)
    decreases n, vs, 0
  {
    ts := [];
    for i := 0 to |vs|
      invariant UnfoldAll(h, vs[..i], ts)
    {
      var t := RankedUnfolds(h, k, vs[i], n);
      ts := ts + [t];
    }
    assert vs[..|vs|] == vs;
  }

  /** One more than the size of the unfolding of `v`; 0 when it has none. */
  ghost function Size(h: Heap, v: Value): nat {
    if exists t :: Unfolds(h, v, t) then
      var t :| Unfolds(h, v, t);
      Nodes(t) + 1
    else
      0
  }

  lemma SizeIs(h: Heap, v: Value, t: Tree)
    requires Unfolds(h, v, t)
    ensures Size(h, v) == Nodes(t) + 1
  {
    var u :| Unfolds(h, v, u) && Size(h, v) == Nodes(u) + 1;
    UnfoldsUnique(h, v, t, u);
  }

  ghost function Sizes(h: Heap): Ranks {
    Ranks(r => Size(h, ListValue(r)), r => Size(h, DictValue(r)))
  }

  lemma {:induction false} UnfoldsBelow(h: Heap, v: Value, t: Tree, n: nat)
    requires Unfolds(h, v, t) && Nodes(t) + 1 < n
    ensures Below(v, n, Sizes(h))
    decreases v
  {
    match v
    case ListValue(r) => SizeIs(h, v, t);
    case DictValue(r) => SizeIs(h, v, t);
    case TupleValue(elements) =>
      forall w | w in elements ensures Below(w, n, Sizes(h)) {
        var u := ChildUnfolds(h, v, t, w);
        UnfoldsBelow(h, w, u, n);
      }
    case _ =>
  }

  lemma SizesRanked(h: Heap)
    ensures Ranked(h, Sizes(h))
  {
    var k := Sizes(h);
    forall r | 0 < k.lists(r) ensures AllBelow(h.lists(r), k.lists(r), k) {
      ChildrenBelow(h, ListValue(r));
    }
    forall r | 0 < k.dicts(r)
      ensures AllBelow(Values(h.dicts(r)), k.dicts(r), k) && HasStringKeys(h.dicts(r))
    {
      ChildrenBelow(h, DictValue(r));
      var t :| Unfolds(h, DictValue(r), t);
      assert StringKeys(h.dicts(r), t.keys);
    }
  }

  lemma ChildrenBelow(h: Heap, v: Value)
    requires 0 < Size(h, v)
    ensures AllBelow(Children(h, v), Size(h, v), Sizes(h))
  {
    var t :| Unfolds(h, v, t);
    SizeIs(h, v, t);
    forall w | w in Children(h, v) ensures Below(w, Size(h, v), Sizes(h)) {
      var u := ChildUnfolds(h, v, t, w);
      UnfoldsBelow(h, w, u, Size(h, v));
    }
  }

  /** What has a meaning, in graph terms: `v` unfolds exactly when it lies in an acyclic
      part of the graph with string dict keys and int64 integers.  Sharing plays no
      part. */
  lemma UnfoldsIffAcyclic(h: Heap, v: Value)
    ensures (exists t :: Unfolds(h, v, t)) <==> (exists k, n :: Ranked(h, k) && Below(v, n, k))
  {
    if t :| Unfolds(h, v, t) {
      SizesRanked(h);
      UnfoldsBelow(h, v, t, Nodes(t) + 2);
      assert exists k, n :: Ranked(h, k) && Below(v, n, k);
    }
    if k, n :| Ranked(h, k) && Below(v, n, k) {
      var t := RankedUnfolds(h, k, v, n);
      assert exists t :: Unfolds(h, v, t);
    }
  }

  /** The Go map has exactly the keys of the dict. */
  lemma {:induction false} EntryKeys(keys: seq<Bytes>, vals: seq<Tree>)
    requires |keys| == |vals|
    ensures forall k :: k in ToGoEntries(keys, vals) <==> k in keys
    decreases |keys|
  {
    if keys != [] {
      var n := |keys| - 1;
      EntryKeys(keys[..n], vals[..n]);
      hide ToGo;
      assert keys == keys[..n] + [keys[n]];
    }
  }

  /** With distinct keys, as every Starlark dict has, the Go map loses no entry. */
  lemma {:induction false} DistinctKeysKept(keys: seq<Bytes>, vals: seq<Tree>, i: nat)
    requires |keys| == |vals| && i < |keys|
    requires forall j, k | 0 <= j < k < |keys| :: keys[j] != keys[k]
    ensures keys[i] in ToGoEntries(keys, vals) && ToGoEntries(keys, vals)[keys[i]] == ToGo(vals[i])
    decreases |keys|
  {
    var n := |keys| - 1;
    hide ToGo;
    if i < n {
      DistinctKeysKept(keys[..n], vals[..n], i);
      assert keys[..n][i] == keys[i] != keys[n];
    }
  }

  // ---------------------------------------------------------------- what a Go value stands for

  /** `g` stands for `v`: the same scalar, a slice of the same length element by element, or a map
      with the dict's keys and, for each, what its last entry stands for. */
  ghost predicate Represents(h: Heap, v: Value, g: GoValue)
    decreases g
  {
    match v
    case NoneValue => g == GoNil
    case BoolValue(b) => g == GoBool(b)
    case StringValue(s) => g == GoString(s)
    case IntValue(i) => g == GoInt64(i) && -0x8000_0000_0000_0000 <= i <= 0x7FFF_FFFF_FFFF_FFFF
    case FloatValue(bits) => g == GoFloat64(bits)
    case ListValue(r) =>
      g.GoSlice? && |g.items| == |h.lists(r)| &&
      forall i | 0 <= i < |g.items| :: Represents(h, h.lists(r)[i], g.items[i])
    case TupleValue(elements) =>
      g.GoSlice? && |g.items| == |elements| &&
      forall i | 0 <= i < |g.items| :: Represents(h, elements[i], g.items[i])
    case DictValue(r) =>
      && g.GoMap?
      && (forall i | 0 <= i < |h.dicts(r)| :: h.dicts(r)[i].0.StringValue? && h.dicts(r)[i].0.s in g.entries)
      && forall k | k in g.entries ::
           exists i :: LastEntry(h.dicts(r), k, i) && Represents(h, h.dicts(r)[i].1, g.entries[k])
    case OtherValue => false
  }

  /** The last entry with this key. */
  ghost predicate LastEntry(entries: seq<(Value, Value)>, key: Bytes, i: int) {
    && 0 <= i < |entries| && entries[i].0 == StringValue(key)
    && forall j | i < j < |entries| :: entries[j].0 != StringValue(key)
  }

  lemma {:induction false} ToGoAllAt(ts: seq<Tree>, i: nat)
    requires i < |ts|
    ensures ToGoAll(ts)[i] == ToGo(ts[i])
  {
    if i < |ts| - 1 { ToGoAllAt(ts[..|ts| - 1], i); }
  }

  lemma {:induction false} LastValue(keys: seq<Bytes>, vals: seq<Tree>, key: Bytes) returns (i: nat)
    requires |keys| == |vals| && key in ToGoEntries(keys, vals)
    ensures i < |keys| && keys[i] == key && forall j | i < j < |keys| :: keys[j] != key
    ensures ToGoEntries(keys, vals)[key] == ToGo(vals[i])
    decreases |keys|
  {
    var n := |keys| - 1;
    hide ToGo;
    if keys[n] == key {
      i := n;
    } else {
      i := LastValue(keys[..n], vals[..n], key);
    }
  }

  /** The Go value of a value's tree stands for the value. */
  lemma {:induction false} TreeRepresents(h: Heap, v: Value, t: Tree)
    requires Unfolds(h, v, t)
    ensures Represents(h, v, ToGo(t))
    decreases t
  {
    match v
    case ListValue(r) => ItemsRepresent(h, h.lists(r), t.items);
    case TupleValue(elements) => ItemsRepresent(h, elements, t.items);
    case DictValue(r) => EntriesRepresent(h, r, t);
    case _ =>
  }

  lemma {:induction false} ItemsRepresent(h: Heap, vs: seq<Value>, ts: seq<Tree>)
    requires UnfoldAll(h, vs, ts)
    ensures forall i | 0 <= i < |ts| :: Represents(h, vs[i], ToGoAll(ts)[i])
    decreases ts, 0
  {
    forall i | 0 <= i < |ts| ensures Represents(h, vs[i], ToGoAll(ts)[i]) {
      ToGoAllAt(ts, i);
      TreeRepresents(h, vs[i], ts[i]);
    }
  }

  lemma {:induction false} EntriesRepresent(h: Heap, r: Ref, t: Tree)
    requires Unfolds(h, DictValue(r), t)
    ensures Represents(h, DictValue(r), ToGo(t))
    decreases t, 0
  {
    var entries, g := h.dicts(r), ToGoEntries(t.keys, t.vals);
    EntryKeys(t.keys, t.vals);
    forall i | 0 <= i < |entries| ensures entries[i].0.StringValue? && entries[i].0.s in g {
      assert entries[i].0.s == t.keys[i];
    }
    forall k | k in g ensures exists i :: LastEntry(entries, k, i) && Represents(h, entries[i].1, g[k]) {
      var i := LastValue(t.keys, t.vals, k);
      assert LastEntry(entries, k, i);
      assert Unfolds(h, Values(entries)[i], t.vals[i]);
      TreeRepresents(h, entries[i].1, t.vals[i]);
    }
  }

  // ---------------------------------------------------------------- the converter

  predicate AllShort(ts: seq<Tree>) {
    forall i | 0 <= i < |ts| :: ShortStrings(ts[i])
  }

  predicate ShortKeys(keys: seq<Bytes>) {
    forall i | 0 <= i < |keys| :: |keys[i]| <= MAX_STRING_BYTES
  }

  lemma NoTrees(h: Heap, vs: seq<Value>, al: set<Ref>, ad: set<Ref>)
    ensures NodesAll([]) == CostAll([]) == DepthAll([]) == KeyBytes([]) == 0
    ensures ToGoAll([]) == [] && ToGoEntries([], []) == map[]
    ensures UnfoldAllOff(h, vs[..0], [], al, ad) && AllShort([]) && ShortKeys([])
  {
  }

  lemma AppendTree(ts: seq<Tree>, t: Tree, depth: nat, n0: int, b0: int)
    requires AllShort(ts) && Fits(t, depth, n0, b0)
    ensures AllShort(ts + [t]) && depth + Depth(t) <= MAX_DEPTH
    ensures NodesAll(ts + [t]) == NodesAll(ts) + Nodes(t)
    ensures CostAll(ts + [t]) == CostAll(ts) + Cost(t)
    ensures DepthAll(ts + [t]) == Max(DepthAll(ts), Depth(t))
    ensures ToGoAll(ts + [t]) == ToGoAll(ts) + [ToGo(t)]
  {
    assert (ts + [t])[..|ts|] == ts;
  }

  lemma AppendVisits(ts: seq<Tree>, t: Tree)
    ensures VisitsAll(ts + [t]) == VisitsAll(ts) + Visits(t)
  {
    assert (ts + [t])[..|ts|] == ts;
  }

  lemma NoVisits()
    ensures VisitsAll([]) == 0
  {
  }

  lemma AllVisits(keys: seq<Bytes>, ts: seq<Tree>)
    ensures Visits(SeqTree(ts)) == Visits(MapTree(keys, ts)) == 1 + VisitsAll(ts)
  {
  }

  lemma AppendUnfolding(h: Heap, vs: seq<Value>, ts: seq<Tree>, t: Tree, al: set<Ref>, ad: set<Ref>)
    requires |ts| < |vs| && UnfoldAllOff(h, vs[..|ts|], ts, al, ad) && UnfoldsOff(h, vs[|ts|], t, al, ad)
    ensures UnfoldAllOff(h, vs[..|ts| + 1], ts + [t], al, ad)
  {
    var n := |ts|;
    forall i | 0 <= i < n + 1 ensures UnfoldsOff(h, vs[..n + 1][i], (ts + [t])[i], al, ad) {
      if i < n { assert vs[..n + 1][i] == vs[..n][i]; }
    }
  }

  lemma AnswerSeq(h: Heap, vs: seq<Value>, ts: seq<Tree>, depth: nat, n0: int, b0: int, al: set<Ref>, ad: set<Ref>)
    requires |ts| == |vs| && UnfoldAllOff(h, vs[..|ts|], ts, al, ad) && AllShort(ts)
    requires depth + 1 + DepthAll(ts) <= MAX_DEPTH && n0 + 1 + NodesAll(ts) <= MAX_NODES
    requires b0 + SeqOverhead(|vs|) + CostAll(ts) <= MAX_OUTPUT_BYTES
    ensures UnfoldsOff(h, TupleValue(vs), SeqTree(ts), al, ad) && Fits(SeqTree(ts), depth, n0, b0)
    ensures Nodes(SeqTree(ts)) == 1 + NodesAll(ts) && Cost(SeqTree(ts)) == SeqOverhead(|vs|) + CostAll(ts)
    ensures ToGo(SeqTree(ts)) == GoSlice(ToGoAll(ts))
  {
    assert vs[..|ts|] == vs;
  }

  lemma AnswerDict(h: Heap, r: Ref, keys: seq<Bytes>, ts: seq<Tree>, depth: nat, n0: int, b0: int, al: set<Ref>,
                   ad: set<Ref>)
    requires |ts| == |keys| == |h.dicts(r)| && StringKeys(h.dicts(r)[..|ts|], keys) && r !in ad
    requires UnfoldAllOff(h, Values(h.dicts(r))[..|ts|], ts, al, ad + {r}) && AllShort(ts) && ShortKeys(keys)
    requires depth + 1 + DepthAll(ts) <= MAX_DEPTH && n0 + 1 + |keys| + NodesAll(ts) <= MAX_NODES
    requires b0 + DictOverhead(|keys|) + KeyBytes(keys) + CostAll(ts) <= MAX_OUTPUT_BYTES
    ensures UnfoldsOff(h, DictValue(r), MapTree(keys, ts), al, ad) && Fits(MapTree(keys, ts), depth, n0, b0)
    ensures Nodes(MapTree(keys, ts)) == 1 + |keys| + NodesAll(ts)
    ensures Cost(MapTree(keys, ts)) == DictOverhead(|keys|) + KeyBytes(keys) + CostAll(ts)
    ensures ToGo(MapTree(keys, ts)) == GoMap(ToGoEntries(keys, ts))
  {
    assert h.dicts(r)[..|ts|] == h.dicts(r) && Values(h.dicts(r))[..|ts|] == Values(h.dicts(r));
  }

  lemma AppendKey(keys: seq<Bytes>, key: Bytes)
    requires ShortKeys(keys) && |key| <= MAX_STRING_BYTES
    ensures ShortKeys(keys + [key])
    ensures KeyBytes(keys + [key]) == KeyBytes(keys) + |key|
  {
    assert (keys + [key])[..|keys|] == keys;
  }

  lemma AppendEntry(keys: seq<Bytes>, ts: seq<Tree>, key: Bytes, t: Tree)
    requires |keys| == |ts|
    ensures ToGoEntries(keys + [key], ts + [t]) == ToGoEntries(keys, ts)[key := ToGo(t)]
  {
    assert (keys + [key])[..|keys|] == keys && (ts + [t])[..|ts|] == ts;
  }

  /** A cancellable context: how many polls pass before it reports cancellation. */
  type Deadline = Option<nat>

  /** Tree `u`, entered under `depth` containers with totals `n0` and `b0`, is over the limit that
      `error` names; nothing is over a limit of shape. */
  ghost predicate Over(error: Error, u: Tree, depth: nat, n0: int, b0: int) {
    match error
    case Timeout => true
    case NodeLimit => n0 + Nodes(u) > MAX_NODES
    case OutputLimit => b0 + Cost(u) > MAX_OUTPUT_BYTES
    case StringLimit => !ShortStrings(u)
    case DepthLimit => depth + Depth(u) > MAX_DEPTH
    case _ => false
  }

  /** Refusing `v` for `error` is right: a timeout comes from the context, an error of size means
      that every tree of `v` is over that limit, and an error of shape that `v` has no tree. */
  ghost predicate Refuses(h: Heap, error: Error, v: Value, depth: nat, n0: int, b0: int, al: set<Ref>, ad: set<Ref>) {
    forall u | UnfoldsOff(h, v, u, al, ad) :: Over(error, u, depth, n0, b0)
  }

  /** The path ends at what an error of shape complains of. */
  ghost predicate Culprit(h: Heap, error: Error, path: seq<Value>, al: set<Ref>, ad: set<Ref>)
    requires path != []
  {
    var last := path[|path| - 1];
    match error
    case UnsupportedType => last == OtherValue
    case IntOutOfRange => last.IntValue? && !(-0x8000_0000_0000_0000 <= last.i <= 0x7FFF_FFFF_FFFF_FFFF)
    case KeyNotString => last.DictValue? && exists e :: e in h.dicts(last.dict) && !e.0.StringValue?
    case CyclicList => last.ListValue? && (last.list in al || last in path[..|path| - 1])
    case CyclicDict => last.DictValue? && (last.dict in ad || last in path[..|path| - 1])
    case _ => true
  }

  /** An error of shape has its culprit within `v`; a cycle closes on the way or at an object that
      `v` is inside. */
  ghost predicate Blamed(h: Heap, error: Error, v: Value, al: set<Ref>, ad: set<Ref>) {
    error.Structural() ==>
      exists path :: IsPath(h, path) && path[0] == v && Culprit(h, error, path, al, ad)
  }

  lemma BlameHere(h: Heap, error: Error, v: Value, al: set<Ref>, ad: set<Ref>)
    requires Culprit(h, error, [v], al, ad)
    ensures Blamed(h, error, v, al, ad)
  {
    assert IsPath(h, [v]);
  }

  lemma BlameChild(h: Heap, error: Error, v: Value, w: Value, al: set<Ref>, ad: set<Ref>, al2: set<Ref>, ad2: set<Ref>)
    requires w in Children(h, v) && Blamed(h, error, w, al2, ad2)
    requires forall r | r in al2 :: r in al || v == ListValue(r)
    requires forall r | r in ad2 :: r in ad || v == DictValue(r)
    ensures Blamed(h, error, v, al, ad)
  {
    if error.Structural() {
      var path :| IsPath(h, path) && path[0] == w && Culprit(h, error, path, al2, ad2);
      LongerPath(h, v, path);
      SameCulprit(h, error, v, path, al, ad, al2, ad2);
      assert ([v] + path)[0] == v;
    }
  }

  lemma LongerPath(h: Heap, v: Value, path: seq<Value>)
    requires IsPath(h, path) && path[0] in Children(h, v)
    ensures IsPath(h, [v] + path)
  {
  }

  lemma SameCulprit(h: Heap, error: Error, v: Value, path: seq<Value>, al: set<Ref>, ad: set<Ref>, al2: set<Ref>,
                    ad2: set<Ref>)
    requires path != [] && Culprit(h, error, path, al2, ad2)
    requires forall r | r in al2 :: r in al || v == ListValue(r)
    requires forall r | r in ad2 :: r in ad || v == DictValue(r)
    ensures Culprit(h, error, [v] + path, al, ad)
  {
    var longer := [v] + path;
    assert longer[|longer| - 1] == path[|path| - 1] && longer[..|longer| - 1] == [v] + path[..|path| - 1];
  }

  /** A list is to blame for what its elements are. */
  lemma BlameList(h: Heap, error: Error, r: Ref, al: set<Ref>, ad: set<Ref>)
    requires Blamed(h, error, TupleValue(h.lists(r)), al + {r}, ad)
    ensures Blamed(h, error, ListValue(r), al, ad)
  {
    if error.Structural() {
      var path :| IsPath(h, path) && path[0] == TupleValue(h.lists(r)) && Culprit(h, error, path, al + {r}, ad);
      assert |path| > 1;
      var below := path[1..];
      assert forall i | 0 < i < |below| :: below[i] == path[i + 1] && below[i - 1] == path[i];
      assert IsPath(h, below) && below[|below| - 1] == path[|path| - 1];
      assert path[..|path| - 1] == [path[0]] + below[..|below| - 1];
      assert Culprit(h, error, below, al + {r}, ad);
      BlameChild(h, error, ListValue(r), below[0], al, ad, al + {r}, ad);
    }
  }

  lemma BlameKey(h: Heap, r: Ref, i: nat, al: set<Ref>, ad: set<Ref>)
    requires i < |h.dicts(r)| && !h.dicts(r)[i].0.StringValue?
    ensures Blamed(h, KeyNotString, DictValue(r), al, ad)
  {
    assert h.dicts(r)[i] in h.dicts(r);
    BlameHere(h, KeyNotString, DictValue(r), al, ad);
  }

  lemma RefuseScalar(h: Heap, error: Error, v: Value, t: Tree, depth: nat, n0: int, b0: int, al: set<Ref>, ad: set<Ref>)
    requires UnfoldsOff(h, v, t, al, ad) && Over(error, t, depth, n0, b0)
    ensures Refuses(h, error, v, depth, n0, b0, al, ad)
  {
    forall u | UnfoldsOff(h, v, u, al, ad) ensures u == t { UnfoldsOffUnique(h, v, t, u, al, ad); }
  }

  lemma RefuseLate(h: Heap, v: Value, depth: nat, n0: int, b0: int, al: set<Ref>, ad: set<Ref>)
    ensures Refuses(h, Timeout, v, depth, n0, b0, al, ad)
  {
  }

  lemma RefuseFull(h: Heap, v: Value, depth: nat, n0: int, b0: int, al: set<Ref>, ad: set<Ref>)
    requires n0 + 1 > MAX_NODES
    ensures Refuses(h, NodeLimit, v, depth, n0, b0, al, ad)
  {
    forall u: Tree ensures Nodes(u) >= 1 { }
  }

  lemma RefuseSeq(h: Heap, error: Error, vs: seq<Value>, depth: nat, n0: int, b0: int, al: set<Ref>, ad: set<Ref>)
    requires match error
             case DepthLimit => depth >= MAX_DEPTH
             case NodeLimit => n0 + 1 + |vs| > MAX_NODES
             case OutputLimit => b0 + SeqOverhead(|vs|) > MAX_OUTPUT_BYTES
             case _ => false
    ensures Refuses(h, error, TupleValue(vs), depth, n0, b0, al, ad)
  {
    forall u | UnfoldsOff(h, TupleValue(vs), u, al, ad) ensures Over(error, u, depth, n0, b0) {
      PrefixMeasures(u.items, 0);
    }
  }

  lemma RefuseList(h: Heap, error: Error, r: Ref, depth: nat, n0: int, b0: int, al: set<Ref>, ad: set<Ref>)
    requires r !in al && Refuses(h, error, TupleValue(h.lists(r)), depth, n0, b0, al + {r}, ad)
    ensures Refuses(h, error, ListValue(r), depth, n0, b0, al, ad)
  {
    forall u | UnfoldsOff(h, ListValue(r), u, al, ad)
      ensures UnfoldsOff(h, TupleValue(h.lists(r)), u, al + {r}, ad)
    {
    }
  }

  lemma RefuseDict(h: Heap, error: Error, r: Ref, depth: nat, n0: int, b0: int, al: set<Ref>, ad: set<Ref>)
    requires match error
             case DepthLimit => depth >= MAX_DEPTH
             case NodeLimit => n0 + 1 + 2 * |h.dicts(r)| > MAX_NODES
             case OutputLimit => b0 + DictOverhead(|h.dicts(r)|) > MAX_OUTPUT_BYTES
             case _ => false
    ensures Refuses(h, error, DictValue(r), depth, n0, b0, al, ad)
  {
    forall u | UnfoldsOff(h, DictValue(r), u, al, ad) ensures Over(error, u, depth, n0, b0) {
      PrefixMeasures(u.vals, 0);
    }
  }

  /** Every tree of `vs` that starts with `ts` is over the limit once its next tree is. */
  lemma RefuseNext(h: Heap, error: Error, vs: seq<Value>, ts: seq<Tree>, depth: nat, n0: int, b0: int, al: set<Ref>,
                   ad: set<Ref>)
    requires |ts| < |vs| && UnfoldAllOff(h, vs[..|ts|], ts, al, ad)
    requires Refuses(h, error, vs[|ts|], depth + 1, n0 + 1 + NodesAll(ts), b0 + SeqOverhead(|vs|) + CostAll(ts), al, ad)
    ensures Refuses(h, error, TupleValue(vs), depth, n0, b0, al, ad)
  {
    var n := |ts|;
    forall u | UnfoldsOff(h, TupleValue(vs), u, al, ad) ensures Over(error, u, depth, n0, b0) {
      assert UnfoldsOff(h, vs[n], u.items[n], al, ad);
      assert Over(error, u.items[n], depth + 1, n0 + 1 + NodesAll(ts), b0 + SeqOverhead(|vs|) + CostAll(ts));
      UnfoldAllOffUnique(h, vs[..n], u.items[..n], ts, al, ad);
      StepMeasures(u.items, n);
    }
  }

  /** What the conversion of a dict's first entries fixes of any tree of the dict. */
  lemma EntriesSoFar(h: Heap, r: Ref, keys: seq<Bytes>, ts: seq<Tree>, u: Tree, al: set<Ref>, ad: set<Ref>)
    requires |keys| == |ts| < |h.dicts(r)| && StringKeys(h.dicts(r)[..|ts|], keys)
    requires UnfoldAllOff(h, Values(h.dicts(r))[..|ts|], ts, al, ad + {r})
    requires UnfoldsOff(h, DictValue(r), u, al, ad)
    ensures u.MapTree? && |u.keys| == |u.vals| == |h.dicts(r)|
    ensures u.vals[..|ts|] == ts && u.keys[..|ts|] == keys
    ensures h.dicts(r)[|ts|].0 == StringValue(u.keys[|ts|])
    ensures UnfoldsOff(h, h.dicts(r)[|ts|].1, u.vals[|ts|], al, ad + {r})
  {
    var n := |ts|;
    UnfoldAllOffUnique(h, Values(h.dicts(r))[..n], u.vals[..n], ts, al, ad + {r});
    assert forall i | 0 <= i < n :: StringValue(u.keys[i]) == h.dicts(r)[..n][i].0 == StringValue(keys[i]);
    assert u.keys[..n] == keys;
  }

  lemma EntryMeasures(u: Tree, n: nat)
    requires u.MapTree? && |u.keys| == |u.vals| && n < |u.keys|
    ensures 2 + n + NodesAll(u.vals[..n]) + Nodes(u.vals[n]) <= Nodes(u)
    ensures DictOverhead(|u.keys|) + KeyBytes(u.keys[..n]) + CostAll(u.vals[..n]) + |u.keys[n]| + Cost(u.vals[n])
         <= Cost(u)
    ensures 1 + Depth(u.vals[n]) <= Depth(u)
    ensures ShortStrings(u) ==> |u.keys[n]| <= MAX_STRING_BYTES && ShortStrings(u.vals[n])
  {
    StepMeasures(u.vals, n);
    StepKeyBytes(u.keys, n);
  }

  /** The next entry's key is not a string. */
  lemma RefuseKeyType(h: Heap, error: Error, r: Ref, keys: seq<Bytes>, ts: seq<Tree>, depth: nat, n0: int, b0: int,
                      al: set<Ref>, ad: set<Ref>)
    requires |keys| == |ts| < |h.dicts(r)| && StringKeys(h.dicts(r)[..|ts|], keys)
    requires UnfoldAllOff(h, Values(h.dicts(r))[..|ts|], ts, al, ad + {r})
    requires !h.dicts(r)[|ts|].0.StringValue?
    ensures Refuses(h, error, DictValue(r), depth, n0, b0, al, ad)
  {
    forall u | UnfoldsOff(h, DictValue(r), u, al, ad) ensures false {
      EntriesSoFar(h, r, keys, ts, u, al, ad);
    }
  }

  /** The next entry's key is one node or too many bytes over. */
  lemma RefuseKeySize(h: Heap, error: Error, r: Ref, keys: seq<Bytes>, ts: seq<Tree>, depth: nat, n0: int, b0: int,
                      al: set<Ref>, ad: set<Ref>)
    requires |keys| == |ts| < |h.dicts(r)| && StringKeys(h.dicts(r)[..|ts|], keys)
    requires UnfoldAllOff(h, Values(h.dicts(r))[..|ts|], ts, al, ad + {r})
    requires var key := h.dicts(r)[|ts|].0;
             match error
             case NodeLimit => n0 + 2 + |ts| + NodesAll(ts) > MAX_NODES
             case StringLimit => key.StringValue? && |key.s| > MAX_STRING_BYTES
             case OutputLimit => key.StringValue? &&
               b0 + DictOverhead(|h.dicts(r)|) + KeyBytes(keys) + CostAll(ts) + |key.s| > MAX_OUTPUT_BYTES
             case _ => false
    ensures Refuses(h, error, DictValue(r), depth, n0, b0, al, ad)
  {
    forall u | UnfoldsOff(h, DictValue(r), u, al, ad) ensures Over(error, u, depth, n0, b0) {
      EntriesSoFar(h, r, keys, ts, u, al, ad);
      EntryMeasures(u, |ts|);
    }
  }

  lemma NextEntry(h: Heap, error: Error, r: Ref, keys: seq<Bytes>, ts: seq<Tree>, u: Tree, depth: nat, n0: int, b0: int,
                  al: set<Ref>, ad: set<Ref>)
    requires |keys| == |ts| < |h.dicts(r)| && StringKeys(h.dicts(r)[..|ts|], keys)
    requires UnfoldAllOff(h, Values(h.dicts(r))[..|ts|], ts, al, ad + {r})
    requires UnfoldsOff(h, DictValue(r), u, al, ad) && h.dicts(r)[|ts|].0.StringValue?
    ensures exists w :: UnfoldsOff(h, h.dicts(r)[|ts|].1, w, al, ad + {r}) &&
              (Over(error, w, depth + 1, n0 + 2 + |ts| + NodesAll(ts),
                    b0 + DictOverhead(|h.dicts(r)|) + KeyBytes(keys) + CostAll(ts) + |h.dicts(r)[|ts|].0.s|) ==>
               Over(error, u, depth, n0, b0))
  {
    EntriesSoFar(h, r, keys, ts, u, al, ad);
    var w := u.vals[|ts|];
    assert UnfoldsOff(h, h.dicts(r)[|ts|].1, w, al, ad + {r});
    EntryMeasures(u, |ts|);
  }

  /** The next entry's value is over a limit, or has no tree. */
  lemma RefuseEntryValue(h: Heap, error: Error, r: Ref, keys: seq<Bytes>, ts: seq<Tree>, depth: nat, n0: int, b0: int,
                         al: set<Ref>, ad: set<Ref>)
    requires |keys| == |ts| < |h.dicts(r)| && StringKeys(h.dicts(r)[..|ts|], keys)
    requires UnfoldAllOff(h, Values(h.dicts(r))[..|ts|], ts, al, ad + {r})
    requires h.dicts(r)[|ts|].0.StringValue?
    requires Refuses(h, error, h.dicts(r)[|ts|].1, depth + 1, n0 + 2 + |ts| + NodesAll(ts),
                     b0 + DictOverhead(|h.dicts(r)|) + KeyBytes(keys) + CostAll(ts) + |h.dicts(r)[|ts|].0.s|, al,
                       ad + {r})
    ensures Refuses(h, error, DictValue(r), depth, n0, b0, al, ad)
  {
    hide NodesAll, CostAll, KeyBytes, Over, UnfoldsOff, UnfoldAllOff;
    forall u | UnfoldsOff(h, DictValue(r), u, al, ad) ensures Over(error, u, depth, n0, b0) {
      NextEntry(h, error, r, keys, ts, u, depth, n0, b0, al, ad);
    }
  }

  /** The loop over a dict's entries, after the first `|ts|` of them. */
  ghost predicate SoFar(h: Heap, r: Ref, keys: seq<Bytes>, ts: seq<Tree>, res: map<Bytes, GoValue>, depth: nat, n0: int,
                        b0: int, nodes: int, bytes: int, al: set<Ref>, ad: set<Ref>) {
    && |keys| == |ts| <= |h.dicts(r)| && StringKeys(h.dicts(r)[..|ts|], keys) && r !in ad
    && UnfoldAllOff(h, Values(h.dicts(r))[..|ts|], ts, al, ad + {r}) && res == ToGoEntries(keys, ts)
    && nodes == n0 + 1 + |ts| + NodesAll(ts)
    && bytes == b0 + DictOverhead(|h.dicts(r)|) + KeyBytes(keys) + CostAll(ts)
    && depth + 1 + DepthAll(ts) <= MAX_DEPTH && ShortKeys(keys) && AllShort(ts)
  }

  lemma NoEntries(h: Heap, r: Ref, depth: nat, n0: int, b0: int, al: set<Ref>, ad: set<Ref>)
    requires depth < MAX_DEPTH && r !in ad
    ensures SoFar(h, r, [], [], map[], depth, n0, b0, n0 + 1, b0 + DictOverhead(|h.dicts(r)|), al, ad)
  {
    NoTrees(h, Values(h.dicts(r)), al, ad + {r});
  }

  lemma KeyRefused(h: Heap, error: Error, r: Ref, keys: seq<Bytes>, ts: seq<Tree>, res: map<Bytes, GoValue>, depth: nat,
                   n0: int, b0: int, nodes: int, bytes: int, al: set<Ref>, ad: set<Ref>)
    requires SoFar(h, r, keys, ts, res, depth, n0, b0, nodes, bytes, al, ad) && |ts| < |h.dicts(r)|
    requires var key := h.dicts(r)[|ts|].0;
             match error
             case NodeLimit => nodes + 1 > MAX_NODES
             case KeyNotString => !key.StringValue?
             case StringLimit => key.StringValue? && |key.s| > MAX_STRING_BYTES
             case OutputLimit => key.StringValue? && bytes + |key.s| > MAX_OUTPUT_BYTES
             case _ => false
    ensures Refuses(h, error, DictValue(r), depth, n0, b0, al, ad) && Blamed(h, error, DictValue(r), al, ad)
  {
    hide Refuses, Culprit, IsPath;
    if error.KeyNotString? {
      RefuseKeyType(h, error, r, keys, ts, depth, n0, b0, al, ad);
      BlameKey(h, r, |ts|, al, ad);
    } else {
      RefuseKeySize(h, error, r, keys, ts, depth, n0, b0, al, ad);
    }
  }

  lemma ValueRefused(h: Heap, error: Error, r: Ref, keys: seq<Bytes>, ts: seq<Tree>, res: map<Bytes, GoValue>,
                     depth: nat, n0: int, b0: int, nodes: int, bytes: int, al: set<Ref>, ad: set<Ref>)
    requires SoFar(h, r, keys, ts, res, depth, n0, b0, nodes, bytes, al, ad) && |ts| < |h.dicts(r)|
    requires h.dicts(r)[|ts|].0.StringValue?
    requires var (key, val) := h.dicts(r)[|ts|];
      && Refuses(h, error, val, depth + 1, nodes + 1, bytes + |key.s|, al, ad + {r})
      && Blamed(h, error, val, al, ad + {r})
    ensures Refuses(h, error, DictValue(r), depth, n0, b0, al, ad) && Blamed(h, error, DictValue(r), al, ad)
  {
    hide Refuses, Blamed;
    RefuseEntryValue(h, error, r, keys, ts, depth, n0, b0, al, ad);
    assert Values(h.dicts(r))[|ts|] == h.dicts(r)[|ts|].1;
    BlameChild(h, error, DictValue(r), h.dicts(r)[|ts|].1, al, ad, al, ad + {r});
  }

  lemma EntryDone(h: Heap, r: Ref, keys: seq<Bytes>, ts: seq<Tree>, res: map<Bytes, GoValue>, depth: nat, n0: int,
                  b0: int, nodes: int, bytes: int, al: set<Ref>, ad: set<Ref>, sub: Tree)
    requires SoFar(h, r, keys, ts, res, depth, n0, b0, nodes, bytes, al, ad) && |ts| < |h.dicts(r)|
    requires h.dicts(r)[|ts|].0.StringValue? && |h.dicts(r)[|ts|].0.s| <= MAX_STRING_BYTES
    requires UnfoldsOff(h, h.dicts(r)[|ts|].1, sub, al, ad + {r})
    requires Fits(sub, depth + 1, nodes + 1, bytes + |h.dicts(r)[|ts|].0.s|)
    ensures var key := h.dicts(r)[|ts|].0.s;
      SoFar(h, r, keys + [key], ts + [sub], res[key := ToGo(sub)], depth, n0, b0, nodes + 1 + Nodes(sub),
            bytes + |key| + Cost(sub), al, ad)
  {
    hide UnfoldsOff, UnfoldAllOff, Nodes, NodesAll, Cost, CostAll, Depth, DepthAll, KeyBytes, ToGo, ToGoEntries,
         ShortStrings, AllShort, ShortKeys;
    var key := h.dicts(r)[|ts|].0.s;
    AppendTree(ts, sub, depth + 1, nodes + 1, bytes + |key|);
    AppendUnfolding(h, Values(h.dicts(r)), ts, sub, al, ad + {r});
    AppendKey(keys, key);
    AppendEntry(keys, ts, key, sub);
  }

  lemma AllEntries(h: Heap, r: Ref, keys: seq<Bytes>, ts: seq<Tree>, res: map<Bytes, GoValue>, depth: nat, n0: int,
                   b0: int, nodes: int, bytes: int, al: set<Ref>, ad: set<Ref>)
    requires SoFar(h, r, keys, ts, res, depth, n0, b0, nodes, bytes, al, ad) && |ts| == |h.dicts(r)|
    requires nodes <= MAX_NODES && bytes <= MAX_OUTPUT_BYTES
    ensures var t := MapTree(keys, ts);
      && UnfoldsOff(h, DictValue(r), t, al, ad) && GoMap(res) == ToGo(t) && Fits(t, depth, n0, b0)
      && nodes == n0 + Nodes(t) && bytes == b0 + Cost(t)
  {
    AnswerDict(h, r, keys, ts, depth, n0, b0, al, ad);
  }

  class StarlarkConverter {
    const heap: Heap
    const deadline: Deadline
    var polls: nat
    var nodes: int
    var outputBytes: int
    var activeLists: set<Ref>
    var activeDicts: set<Ref>

    constructor (heap: Heap, deadline: Deadline)
      ensures this.heap == heap && this.deadline == deadline
      ensures polls == nodes == outputBytes == 0 && activeLists == activeDicts == {}
    {
      this.heap, this.deadline := heap, deadline;
      polls, nodes, outputBytes := 0, 0, 0;
      activeLists, activeDicts := {}, {};
    }

    predicate InBudget()
      reads this
    {
      0 <= nodes <= MAX_NODES && 0 <= outputBytes <= MAX_OUTPUT_BYTES
    }

    /** No poll has reported cancellation yet. */
    predicate Live()
      reads this
    {
      deadline.Some? ==> polls <= deadline.value
    }

    method CheckContext() returns (err: Option<Error>)
      requires Live()
      modifies this`polls
      ensures polls == old(polls) + 1
      ensures err == if Live() then None else Some(Timeout)
    {
      err := if deadline.Some? && deadline.value <= polls then Some(Timeout) else None;
      polls := polls + 1;
    }

    /** Checks without consuming. */
    method ReserveNodes(count: int) returns (err: Option<Error>)
      ensures err == if 0 <= count && nodes + count <= MAX_NODES then None else Some(NodeLimit)
    {
      err := if count < 0 || count > MAX_NODES - nodes then Some(NodeLimit) else None;
    }

    method ConsumeNodes(count: int) returns (err: Option<Error>)
      modifies this`nodes
      ensures err == if 0 <= count && old(nodes) + count <= MAX_NODES then None else Some(NodeLimit)
      ensures nodes == if err.None? then old(nodes) + count else old(nodes)
    {
      err := ReserveNodes(count);
      if err.None? {
        nodes := nodes + count;
      }
    }

    method ConsumeOutputBytes(count: int) returns (err: Option<Error>)
      modifies this`outputBytes
      ensures err == if 0 <= count && old(outputBytes) + count <= MAX_OUTPUT_BYTES then None else Some(OutputLimit)
      ensures outputBytes == if err.None? then old(outputBytes) + count else old(outputBytes)
    {
      if count < 0 || count > MAX_OUTPUT_BYTES - outputBytes {
        return Some(OutputLimit);
      }
      outputBytes := outputBytes + count;
      err := None;
    }

    method ConvertScalar(value: GoValue, bytes: int) returns (r: Result<GoValue>)
      modifies this`outputBytes
      ensures r == if 0 <= bytes && old(outputBytes) + bytes <= MAX_OUTPUT_BYTES then Ok(value) else Err(OutputLimit)
      ensures outputBytes == if r.Ok? then old(outputBytes) + bytes else old(outputBytes)
    {
      var err := ConsumeOutputBytes(bytes);
      r := if err.Some? then Err(err.value) else Ok(value);
    }

    method ConvertStringValue(value: Bytes) returns (err: Option<Error>)
      modifies this`outputBytes
      ensures err == if |value| > MAX_STRING_BYTES then Some(StringLimit)
                     else if old(outputBytes) + |value| > MAX_OUTPUT_BYTES then Some(OutputLimit) else None
      ensures outputBytes == if err.None? then old(outputBytes) + |value| else old(outputBytes)
    {
      if |value| > MAX_STRING_BYTES {
        return Some(StringLimit);
      }
      err := ConsumeOutputBytes(|value|);
    }

    /** What every conversion does to the totals `n0`, `b0`, `p0` it started with;
        a failed one may have polled once without consuming a node. */
    ghost predicate Accounted(r: Result<GoValue>, n0: int, b0: int, p0: nat)
      reads this
    {
      && InBudget()
      && n0 <= nodes && b0 <= outputBytes
      && p0 <= polls <= p0 + (nodes - n0) + (if r.Ok? then 0 else 1)
      && (r == Err(Timeout) <==> !Live())
    }

    /** `r` is the answer for `v`: on success the unfolding of `v`, charged exactly. */
    ghost predicate Answers(r: Result<GoValue>, t: Tree, v: Value, depth: nat, n0: int, b0: int, p0: int, al: set<Ref>,
                            ad: set<Ref>)
      reads this
    {
      match r
      case Ok(value) =>
        && UnfoldsOff(heap, v, t, al, ad) && value == ToGo(t) && Fits(t, depth, n0, b0)
        && nodes == n0 + Nodes(t) && outputBytes == b0 + Cost(t) && polls == p0 + Visits(t)
      case Err(error) => Refuses(heap, error, v, depth, n0, b0, al, ad) && Blamed(heap, error, v, al, ad)
    }

    method Convert(value: Value, depth: nat) returns (r: Result<GoValue>, ghost t: Tree)
      requires Live() && InBudget() && depth <= MAX_DEPTH
      modifies this
      ensures activeLists == old(activeLists) && activeDicts == old(activeDicts)
      ensures Accounted(r, old(nodes), old(outputBytes), old(polls))
      ensures Answers(r, t, value, depth, old(nodes), old(outputBytes), old(polls), old(activeLists), old(activeDicts))
      decreases MAX_DEPTH - depth, 3
    {
      hide UnfoldsOff, Refuses, Culprit, IsPath, Fits, Nodes, Cost, Visits, ToGo;
      t := NilTree;
      var err := CheckContext();
      if err.Some? {
        RefuseLate(heap, value, depth, nodes, outputBytes, activeLists, activeDicts);
        return Err(err.value), t;
      }
      err := ConsumeNodes(1);
      if err.Some? {
        RefuseFull(heap, value, depth, nodes, outputBytes, activeLists, activeDicts);
        return Err(err.value), t;
      }
      match value {
        case ListValue(list) =>
          r, t := ConvertList(list, depth);
        case TupleValue(elements) =>
          r, t := ConvertIterable(elements, depth);
        case DictValue(dict) =>
          r, t := ConvertDict(dict, depth);
        case _ =>
          r, t := ConvertLeaf(value, depth);
      }
    }

    /** The scalar cases of the dispatch in `Convert`. */
    method ConvertLeaf(value: Value, ghost depth: nat) returns (r: Result<GoValue>, ghost t: Tree)
      requires Live() && InBudget() && 1 <= nodes && depth <= MAX_DEPTH
      requires !value.ListValue? && !value.TupleValue? && !value.DictValue?
      modifies this`outputBytes
      ensures Accounted(r, old(nodes), old(outputBytes), old(polls))
      ensures Answers(r, t, value, depth, old(nodes) - 1, old(outputBytes), polls - 1, activeLists, activeDicts)
      ensures r.Ok? ==>
        match value
        case NoneValue => r.value == GoNil
        case BoolValue(b) => r.value == GoBool(b)
        case StringValue(s) => r.value == GoString(s)
        case IntValue(i) => r.value == GoInt64(i) && -0x8000_0000_0000_0000 <= i <= 0x7FFF_FFFF_FFFF_FFFF
        case FloatValue(bits) => r.value == GoFloat64(bits)
        case _ => false
    {
      hide UnfoldAllOff, ToGoAll, ToGoEntries, NodesAll, VisitsAll, CostAll, DepthAll, KeyBytes;
      ghost var b0 := outputBytes;
      t := NilTree;
      match value {
        case NoneValue =>
          r := ConvertScalar(GoNil, 4);
        case BoolValue(b) =>
          t := BoolTree(b);
          r := ConvertScalar(GoBool(b), 5);
        case StringValue(s) =>
          t := StringTree(s);
          var err := ConvertStringValue(s);
          r := if err.Some? then Err(err.value) else Ok(GoString(s));
        case IntValue(i) =>
          if !IsInt64(i) {
            BlameHere(heap, IntOutOfRange, value, activeLists, activeDicts);
            return Err(IntOutOfRange), t;
          }
          t := IntTree(i);
          r := ConvertScalar(GoInt64(i), 20);
        case FloatValue(bits) =>
          t := FloatTree(bits);
          r := ConvertScalar(GoFloat64(bits), 24);
        case OtherValue =>
          BlameHere(heap, UnsupportedType, value, activeLists, activeDicts);
          return Err(UnsupportedType), t;
      }
      if r.Err? {
        RefuseScalar(heap, r.error, value, t, depth, nodes - 1, b0, activeLists, activeDicts);
      }
    }

    method ConvertList(list: Ref, depth: nat) returns (r: Result<GoValue>, ghost t: Tree)
      requires Live() && InBudget() && 1 <= nodes && depth <= MAX_DEPTH
      modifies this
      ensures activeLists == old(activeLists) && activeDicts == old(activeDicts)
      ensures Accounted(r, old(nodes), old(outputBytes), old(polls))
      ensures Answers(r, t, ListValue(list), depth, old(nodes) - 1, old(outputBytes), old(polls) - 1,
                      old(activeLists), old(activeDicts))
      decreases MAX_DEPTH - depth, 2
    {
      if list in activeLists {
        BlameHere(heap, CyclicList, ListValue(list), activeLists, activeDicts);
        return Err(CyclicList), NilTree;
      }
      ghost var n0, b0 := nodes - 1, outputBytes;
      activeLists := activeLists + {list};
      r, t := ConvertIterable(heap.lists(list), depth);
      activeLists := activeLists - {list};
      if r.Err? {
        RefuseList(heap, r.error, list, depth, n0, b0, activeLists, activeDicts);
        BlameList(heap, r.error, list, activeLists, activeDicts);
      }
    }

    method ConvertDict(dict: Ref, depth: nat) returns (r: Result<GoValue>, ghost t: Tree)
      requires Live() && InBudget() && 1 <= nodes && depth <= MAX_DEPTH
      modifies this
      ensures activeLists == old(activeLists) && activeDicts == old(activeDicts)
      ensures Accounted(r, old(nodes), old(outputBytes), old(polls))
      ensures Answers(r, t, DictValue(dict), depth, old(nodes) - 1, old(outputBytes), old(polls) - 1,
                      old(activeLists), old(activeDicts))
      decreases MAX_DEPTH - depth, 2
    {
      t := NilTree;
      ghost var n0, b0 := nodes - 1, outputBytes;
      if depth >= MAX_DEPTH {
        RefuseDict(heap, DepthLimit, dict, depth, n0, b0, activeLists, activeDicts);
        return Err(DepthLimit), t;
      }
      if dict in activeDicts {
        BlameHere(heap, CyclicDict, DictValue(dict), activeLists, activeDicts);
        return Err(CyclicDict), t;
      }
      var entries := heap.dicts(dict);
      var err := ReserveNodes(2 * |entries|);
      if err.Some? {
        RefuseDict(heap, NodeLimit, dict, depth, n0, b0, activeLists, activeDicts);
        return Err(err.value), t;
      }
      err := ConsumeOutputBytes(DictOverhead(|entries|));
      if err.Some? {
        RefuseDict(heap, OutputLimit, dict, depth, n0, b0, activeLists, activeDicts);
        return Err(err.value), t;
      }
      activeDicts := activeDicts + {dict};
      r, t := ConvertEntries(dict, depth, n0, b0);
      activeDicts := activeDicts - {dict};
    }

    /** The loop of `ConvertDict`, run while the dict is active. */
    method ConvertEntries(dict: Ref, depth: nat, ghost n0: int, ghost b0: int)
      returns (r: Result<GoValue>, ghost t: Tree)
      requires Live() && InBudget() && depth < MAX_DEPTH && dict in activeDicts
      requires nodes == n0 + 1 && outputBytes == b0 + DictOverhead(|heap.dicts(dict)|)
      modifies this
      ensures activeLists == old(activeLists) && activeDicts == old(activeDicts)
      ensures Accounted(r, old(nodes), b0, old(polls))
      ensures Answers(r, t, DictValue(dict), depth, n0, b0, old(polls) - 1, old(activeLists), old(activeDicts) - {dict})
      decreases MAX_DEPTH - depth, 1
    {
      hide SoFar, UnfoldsOff, Refuses, Blamed, Fits, Nodes, Cost, ToGo, Visits, VisitsAll;
      t := NilTree;
      ghost var al, ad := activeLists, activeDicts - {dict};
      assert activeDicts == ad + {dict};
      var entries := heap.dicts(dict);
      var res: map<Bytes, GoValue> := map[];
      ghost var keys: seq<Bytes>, ts: seq<Tree> := [], [];
      NoEntries(heap, dict, depth, n0, b0, al, ad);
      NoVisits();
      for i := 0 to |entries|
        invariant activeLists == al && activeDicts == ad + {dict} && |ts| == i
        invariant SoFar(heap, dict, keys, ts, res, depth, n0, b0, nodes, outputBytes, al, ad)
        invariant polls == old(polls) + VisitsAll(ts)
        invariant Accounted(Ok(GoNil), old(nodes), b0, old(polls))
      {
        ghost var n1, b1 := nodes, outputBytes;
        var err := ConsumeNodes(1);
        if err.Some? {
          KeyRefused(heap, NodeLimit, dict, keys, ts, res, depth, n0, b0, n1, b1, al, ad);
          return Err(err.value), t;
        }
        var (key, val) := entries[i];
        if !key.StringValue? {
          KeyRefused(heap, KeyNotString, dict, keys, ts, res, depth, n0, b0, n1, b1, al, ad);
          return Err(KeyNotString), t;
        }
        err := ConvertStringValue(key.s);
        if err.Some? {
          KeyRefused(heap, err.value, dict, keys, ts, res, depth, n0, b0, n1, b1, al, ad);
          return Err(err.value), t;
        }
        var item, sub := Convert(val, depth + 1);
        if item.Err? {
          ValueRefused(heap, item.error, dict, keys, ts, res, depth, n0, b0, n1, b1, al, ad);
          return Err(item.error), t;
        }
        EntryDone(heap, dict, keys, ts, res, depth, n0, b0, n1, b1, al, ad, sub);
        AppendVisits(ts, sub);
        keys, ts := keys + [key.s], ts + [sub];
        res := res[key.s := item.value];
      }
      AllEntries(heap, dict, keys, ts, res, depth, n0, b0, nodes, outputBytes, al, ad);
      t := MapTree(keys, ts);
      AllVisits(keys, ts);
      r := Ok(GoMap(res));
    }

    method ConvertIterable(elements: seq<Value>, depth: nat) returns (r: Result<GoValue>, ghost t: Tree)
      requires Live() && InBudget() && 1 <= nodes && depth <= MAX_DEPTH
      modifies this
      ensures activeLists == old(activeLists) && activeDicts == old(activeDicts)
      ensures Accounted(r, old(nodes), old(outputBytes), old(polls))
      ensures Answers(r, t, TupleValue(elements), depth, old(nodes) - 1, old(outputBytes), old(polls) - 1,
                      old(activeLists), old(activeDicts))
      decreases MAX_DEPTH - depth, 1
    {
      hide UnfoldsOff, UnfoldAllOff, Refuses, Culprit, IsPath, Fits, Nodes, NodesAll, Cost, CostAll, Depth, DepthAll,
           KeyBytes, Visits, VisitsAll, ToGo, ToGoAll, ToGoEntries, ShortStrings, AllShort, ShortKeys;
      t := NilTree;
      ghost var n0, b0, al, ad := nodes - 1, outputBytes, activeLists, activeDicts;
      if depth >= MAX_DEPTH {
        RefuseSeq(heap, DepthLimit, elements, depth, n0, b0, al, ad);
        return Err(DepthLimit), t;
      }
      var err := ReserveNodes(|elements|);
      if err.Some? {
        RefuseSeq(heap, NodeLimit, elements, depth, n0, b0, al, ad);
        return Err(err.value), t;
      }
      err := ConsumeOutputBytes(SeqOverhead(|elements|));
      if err.Some? {
        RefuseSeq(heap, OutputLimit, elements, depth, n0, b0, al, ad);
        return Err(err.value), t;
      }
      var res: seq<GoValue> := [];
      ghost var ts: seq<Tree> := [];
      NoTrees(heap, elements, al, ad);
      NoVisits();
      for i := 0 to |elements|
        invariant activeLists == al && activeDicts == ad
        invariant |ts| == i && UnfoldAllOff(heap, elements[..i], ts, al, ad)
        invariant res == ToGoAll(ts)
        invariant nodes == n0 + 1 + NodesAll(ts) && polls == old(polls) + VisitsAll(ts)
        invariant outputBytes == b0 + SeqOverhead(|elements|) + CostAll(ts)
        invariant depth + 1 + DepthAll(ts) <= MAX_DEPTH
        invariant AllShort(ts)
        invariant Accounted(Ok(GoNil), old(nodes), old(outputBytes), old(polls))
      {
        ghost var n1, b1 := nodes, outputBytes;
        var item, sub := Convert(elements[i], depth + 1);
        if item.Err? {
          RefuseNext(heap, item.error, elements, ts, depth, n0, b0, al, ad);
          BlameChild(heap, item.error, TupleValue(elements), elements[i], al, ad, al, ad);
          return Err(item.error), t;
        }
        AppendTree(ts, sub, depth + 1, n1, b1);
        AppendUnfolding(heap, elements, ts, sub, al, ad);
        AppendVisits(ts, sub);
        ts := ts + [sub];
        res := res + [item.value];
      }
      AnswerSeq(heap, elements, ts, depth, n0, b0, al, ad);
      t := SeqTree(ts);
      AllVisits([], ts);
      r := Ok(GoSlice(res));
    }
  }

  /** The whole conversion: accepts exactly the values that unfold to a tree within
      all four limits, returns that tree, and calls `Convert` at most 10,001 times
      however large or cyclic the graph is. */
  method StarlarkValueToGo(h: Heap, deadline: Deadline, v: Value) returns (r: Result<GoValue>, calls: nat)
    ensures r.Ok? ==> Represents(h, v, r.value)
    ensures r.Ok? ==> exists t :: Unfolds(h, v, t) && Fits(t, 0, 0, 0) && r.value == ToGo(t) && calls == Visits(t)
    ensures r.Err? ==> forall t | Unfolds(h, v, t) ::
      match r.error
      case NodeLimit => Nodes(t) > 10_000
      case OutputLimit => |Layout(t)| > 1_048_576
      case StringLimit => exists s :: Occurs(s, t) && |s| > 262_144
      case DepthLimit => Depth(t) > 64
      case Timeout => true
      case _ => false
    ensures r.Err? && r.error.Structural() ==>
      exists path :: IsPath(h, path) && path[0] == v && Culprit(h, r.error, path, {}, {})
    ensures r == Err(Timeout) <==> deadline.Some? && deadline.value < calls
    ensures calls <= 10_001
  {
    var converter := new StarlarkConverter(h, deadline);
    ghost var t;
    r, t := converter.Convert(v, 0);
    calls := converter.polls;
    if r.Ok? {
      UnfoldsOffUnfolds(h, v, t, {}, {});
      TreeRepresents(h, v, t);
    }
    forall u | Unfolds(h, v, u) ensures r.Err? ==> Over(r.error, u, 0, 0, 0) && Cost(u) == |Layout(u)| {
      UnfoldsAvoidsActive(h, v, u, {}, {});
      UnfoldsPaired(h, v, u);
      CostIsLength(u);
    }
    forall u ensures ShortStrings(u) <==> forall s | Occurs(s, u) :: |s| <= 262_144 { StringsAreShort(u); }
  }
}
