/** JSON data as snapshots hold it, and the bounds of the copier every document passes (snapshots.py). */
module JsonCopy {

  /** JSON data as Python holds it: integers and floats apart, objects without an order of their fields. */
  datatype Data =
    | Null
    | Flag(b: bool)
    | Whole(n: int)
    | Fraction(x: real)
    | Str(s: string)
    | Items(items: seq<Data>)
    | Fields(fields: map<string, Data>)

  type Object = map<string, Data>

  const MAX_DEPTH := 64
  const MAX_ITEMS := 500000
  const MAX_BYTES := 33554432

  /** The number of bytes of a string, number or constant in the compact JSON text. */
  type Width = Data -> nat

  // ---- Adding up over a document -----------------------------------------------------------------------------

  /** What a leaf, an empty and a nonempty container, each child and each key contribute. */
  datatype Measure = Measure(leaf: Width, empty: nat, full: nat, each: nat, key: string -> nat)

  /** Every value counts. */
  const COUNT := Measure(_ => 1, 1, 1, 0, _ => 0)

  /** Brackets, a comma after every child but the last, keys with their colons. */
  function Bytes(width: Width): Measure {
    Measure(width, 2, 1, 1, key => width(Str(key)) + 1)
  }

  predicate Leaf(d: Data) {
    !d.Items? && !d.Fields?
  }

  ghost function Total(d: Data, m: Measure): nat
    decreases d, if d.Items? then |d.items| + 1 else if d.Fields? then |d.fields.Keys| + 1 else 0
  {
    match d
    case Items(items) => if items == [] then m.empty else m.full + ItemTotal(d, |items|, m)
    case Fields(fields) => if fields == map[] then m.empty else m.full + FieldTotal(d, fields.Keys, m)
    case _ => m.leaf(d)
  }

  /** The first `n` elements. */
  ghost function ItemTotal(d: Data, n: nat, m: Measure): nat
    requires d.Items? && n <= |d.items|
    decreases d, n
  {
    if n == 0 then 0 else ItemTotal(d, n - 1, m) + m.each + Total(d.items[n - 1], m)
  }

  /** The fields with these keys, in whatever order. */
  ghost function FieldTotal(d: Data, keys: set<string>, m: Measure): nat
    requires d.Fields? && keys <= d.fields.Keys
    decreases d, |keys|
  {
    if keys == {} then 0 else
      var key :| key in keys;
      FieldTotal(d, keys - {key}, m) + m.each + m.key(key) + Total(d.fields[key], m)
  }

  /** The order does not matter. */
  lemma {:induction false} AnyKey(d: Data, keys: set<string>, m: Measure, key: string)
    requires d.Fields? && keys <= d.fields.Keys && key in keys
    ensures FieldTotal(d, keys, m) == FieldTotal(d, keys - {key}, m) + m.each + m.key(key) + Total(d.fields[key], m)
    decreases |keys|
  {
    hide Total;
    var first :| first in keys && FieldTotal(d, keys, m)
                 == FieldTotal(d, keys - {first}, m) + m.each + m.key(first) + Total(d.fields[first], m);
    if first != key {
      AnyKey(d, keys - {first}, m, key);
      AnyKey(d, keys - {key}, m, first);
      assert keys - {first} - {key} == keys - {key} - {first};
    }
  }

  /** Two objects that agree on some keys have the same total over them. */
  lemma {:induction false} SameFields(a: Data, b: Data, keys: set<string>, m: Measure)
    requires a.Fields? && b.Fields? && keys <= a.fields.Keys && keys <= b.fields.Keys
    requires forall key | key in keys :: a.fields[key] == b.fields[key]
    ensures FieldTotal(a, keys, m) == FieldTotal(b, keys, m)
    decreases |keys|
  {
    hide Total;
    if keys != {} {
      var key :| key in keys;
      AnyKey(a, keys, m, key);
      AnyKey(b, keys, m, key);
      SameFields(a, b, keys - {key}, m);
    }
  }

  /** An object without one of its fields is smaller by at least that field. */
  lemma WithoutField(fields: Object, key: string, m: Measure)
    requires key in fields && m.empty <= m.full + m.each + m.key(key)
    ensures Total(Fields(fields - {key}), m) <= Total(Fields(fields), m)
    ensures Total(fields[key], m) <= Total(Fields(fields), m)
  {
    var d, rest := Fields(fields), Fields(fields - {key});
    assert rest.fields.Keys == fields.Keys - {key};
    AnyKey(d, fields.Keys, m, key);
    SameFields(d, rest, rest.fields.Keys, m);
    if rest.fields == map[] {
      assert fields == map[key := fields[key]];
    }
  }

  /** An element is no larger than its list. */
  lemma {:induction false} ItemBelow(d: Data, k: nat, n: nat, m: Measure)
    requires d.Items? && k < n <= |d.items|
    ensures Total(d.items[k], m) <= ItemTotal(d, n, m)
  {
    if k < n - 1 { ItemBelow(d, k, n - 1, m); }
  }

  // ---- The bounds ---------------------------------------------------------------------------------------------

  /** No value lies deeper than `n` below this one. */
  predicate Shallow(d: Data, n: nat)
    decreases d
  {
    match d
    case Items(items) => forall k | 0 <= k < |items| :: n > 0 && Shallow(items[k], n - 1)
    case Fields(fields) => forall key | key in fields :: n > 0 && Shallow(fields[key], n - 1)
    case _ => true
  }

  /** What `_json_copy` copies. */
  ghost predicate Copyable(width: Width, d: Data) {
    Shallow(d, MAX_DEPTH) && Total(d, COUNT) <= MAX_ITEMS && Total(d, Bytes(width)) <= MAX_BYTES
  }

  lemma {:induction false} ShallowMore(d: Data, n: nat, more: nat)
    requires Shallow(d, n) && n <= more
    ensures Shallow(d, more)
    decreases d
  {
    match d
    case Items(items) =>
      forall k | 0 <= k < |items| ensures more > 0 && Shallow(items[k], more - 1) { ShallowMore(items[k], n - 1, more - 1); }
    case Fields(fields) =>
      forall key | key in fields ensures more > 0 && Shallow(fields[key], more - 1) { ShallowMore(fields[key], n - 1, more - 1); }
    case _ =>
  }

  /** Nothing that is inside a copyable list is too large, or deeper, on its own. */
  lemma ItemCopyable(width: Width, items: seq<Data>, k: nat)
    requires Copyable(width, Items(items)) && k < |items|
    ensures Copyable(width, items[k])
  {
    var d := Items(items);
    ItemBelow(d, k, |items|, COUNT);
    ItemBelow(d, k, |items|, Bytes(width));
    ShallowMore(items[k], MAX_DEPTH - 1, MAX_DEPTH);
  }

  /** The same for a field of an object, and for the object without it. */
  lemma FieldCopyable(width: Width, fields: Object, key: string)
    requires Copyable(width, Fields(fields)) && key in fields
    ensures Copyable(width, fields[key]) && Copyable(width, Fields(fields - {key}))
  {
    WithoutField(fields, key, COUNT);
    WithoutField(fields, key, Bytes(width));
    ShallowMore(fields[key], MAX_DEPTH - 1, MAX_DEPTH);
    hide Total;
    assert Shallow(Fields(fields - {key}), MAX_DEPTH);
  }

  // ---- The copier's walk --------------------------------------------------------------------------------------

  /** What is still on the stack. */
  ghost function Remaining(stack: seq<(Data, nat)>): nat {
    if stack == [] then 0 else Remaining(stack[..|stack| - 1]) + Total(stack[|stack| - 1].0, COUNT)
  }

  ghost predicate AllShallow(stack: seq<(Data, nat)>) {
    forall e | e in stack :: e.1 <= MAX_DEPTH && Shallow(e.0, MAX_DEPTH - e.1)
  }

  lemma RemainingPush(stack: seq<(Data, nat)>, e: (Data, nat))
    ensures Remaining(stack + [e]) == Remaining(stack) + Total(e.0, COUNT)
    ensures AllShallow(stack + [e]) <==> AllShallow(stack) && e.1 <= MAX_DEPTH && Shallow(e.0, MAX_DEPTH - e.1)
  {
    assert (stack + [e])[..|stack|] == stack;
    if AllShallow(stack + [e]) {
      forall x | x in stack ensures x.1 <= MAX_DEPTH && Shallow(x.0, MAX_DEPTH - x.1) { assert x in stack + [e]; }
      assert e in stack + [e];
    }
  }

  lemma {:induction false} AtLeastOne(d: Data)
    ensures Total(d, COUNT) >= 1
  {
  }

  /** Every child is pushed, one level deeper. */
  method PushItems(stack: seq<(Data, nat)>, items: seq<Data>, depth: nat) returns (after: seq<(Data, nat)>)
    requires depth <= MAX_DEPTH
    ensures Remaining(after) + 1 == Remaining(stack) + Total(Items(items), COUNT)
    ensures AllShallow(after) <==> AllShallow(stack) && Shallow(Items(items), MAX_DEPTH - depth)
  {
    hide Total, Remaining, AllShallow;
    after := stack;
    for k := 0 to |items|
      invariant Remaining(after) == Remaining(stack) + ItemTotal(Items(items), k, COUNT)
      invariant AllShallow(after) <==>
                  AllShallow(stack) && forall j | 0 <= j < k :: depth < MAX_DEPTH && Shallow(items[j], MAX_DEPTH - depth - 1)
    {
      RemainingPush(after, (items[k], depth + 1));
      after := after + [(items[k], depth + 1)];
    }
    ItemsCount(items);
  }

  lemma ItemsCount(items: seq<Data>)
    ensures Total(Items(items), COUNT) == 1 + ItemTotal(Items(items), |items|, COUNT)
  {
  }

  lemma FieldsCount(fields: Object)
    ensures Total(Fields(fields), COUNT) == 1 + FieldTotal(Fields(fields), fields.Keys, COUNT)
  {
  }

  method PushFields(stack: seq<(Data, nat)>, fields: Object, depth: nat) returns (after: seq<(Data, nat)>)
    requires depth <= MAX_DEPTH
    ensures Remaining(after) + 1 == Remaining(stack) + Total(Fields(fields), COUNT)
    ensures AllShallow(after) <==> AllShallow(stack) && Shallow(Fields(fields), MAX_DEPTH - depth)
  {
    hide Total, Remaining, AllShallow, FieldTotal;
    after := stack;
    var todo := fields.Keys;
    NoFields(Fields(fields));
    while todo != {}
      invariant todo <= fields.Keys
      invariant Remaining(after) + FieldTotal(Fields(fields), todo, COUNT) == Remaining(stack) + FieldTotal(Fields(fields), fields.Keys, COUNT)
      invariant AllShallow(after) <==>
                  AllShallow(stack) && forall key | key in fields && key !in todo :: depth < MAX_DEPTH && Shallow(fields[key], MAX_DEPTH - depth - 1)
      decreases |todo|
    {
      var key :| key in todo;
      AnyKey(Fields(fields), todo, COUNT, key);
      RemainingPush(after, (fields[key], depth + 1));
      after := after + [(fields[key], depth + 1)];
      todo := todo - {key};
    }
    FieldsCount(fields);
  }

  lemma NoFields(d: Data)
    requires d.Fields?
    ensures FieldTotal(d, {}, COUNT) == 0
  {
  }

  /** The bounded walk of `_json_copy`, before the text is made: a stack, a running count, a depth per value. */
  method WithinBounds(value: Data) returns (ok: bool)
    ensures ok <==> Shallow(value, MAX_DEPTH) && Total(value, COUNT) <= MAX_ITEMS
  {
    hide Total, Remaining, AllShallow, Shallow;
    var stack: seq<(Data, nat)> := [(value, 0)];
    var count := 0;
    StartOf(value);
    while stack != []
      invariant count + Remaining(stack) == Total(value, COUNT)
      invariant AllShallow(stack) <==> Shallow(value, MAX_DEPTH)
      invariant count <= MAX_ITEMS
      decreases Remaining(stack)
    {
      var n := |stack| - 1;
      var (item, depth) := stack[n];
      assert stack == stack[..n] + [(item, depth)];
      RemainingPush(stack[..n], (item, depth));
      AtLeastOne(item);
      stack := stack[..n];
      count := count + 1;
      if depth > MAX_DEPTH || count > MAX_ITEMS { return false; }
      match item {
        case Items(items) => stack := PushItems(stack, items, depth);
        case Fields(fields) => stack := PushFields(stack, fields, depth);
        case _ => LeafIsShallow(item, MAX_DEPTH - depth);
      }
    }
    EndOf();
    return true;
  }

  lemma LeafIsShallow(d: Data, n: nat)
    requires Leaf(d)
    ensures Shallow(d, n) && Total(d, COUNT) == 1
  {
  }

  lemma StartOf(value: Data)
    ensures Remaining([(value, 0)]) == Total(value, COUNT)
    ensures AllShallow([(value, 0)]) <==> Shallow(value, MAX_DEPTH)
  {
    var stack: seq<(Data, nat)> := [(value, 0)];
    assert [(value, 0)][..0] == [];
    assert stack[0] in stack;
  }

  lemma EndOf()
    ensures Remaining([]) == 0 && AllShallow([])
  {
  }

  /** `_json_copy`: the walk, then the length of the text it has made. */
  method Copy(value: Data, bytes: nat, ghost width: Width) returns (copied: bool)
    requires bytes == Total(value, Bytes(width))
    ensures copied <==> Copyable(width, value)
  {
    var within := WithinBounds(value);
    copied := within && bytes <= MAX_BYTES;
  }
}
