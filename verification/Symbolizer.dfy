/** The symbolizer's LRU cache: a recency list with a key map. */
module LruModel {
  import opened Types

  datatype Entry<V> = Entry(key: string, value: V)

  /** Newest first. */
  type Order<V> = seq<Entry<V>>

  function Drop<V>(o: Order<V>, key: string): Order<V> {
    if o == [] then [] else if o[0].key == key then Drop(o[1..], key) else [o[0]] + Drop(o[1..], key)
  }

  function Lookup<V>(o: Order<V>, key: string): Option<V> {
    if o == [] then None else if o[0].key == key then Some(o[0].value) else Lookup(o[1..], key)
  }

  datatype Op<V> = Get(key: string) | Put(key: string, value: V) | Remove(key: string)

  function Apply<V>(o: Order<V>, op: Op<V>, capacity: nat): Order<V> {
    match op
    case Get(k) =>
      (match Lookup(o, k)
       case Some(v) => [Entry(k, v)] + Drop(o, k)
       case None => o)
    case Put(k, v) =>
      if Lookup(o, k).Some? then [Entry(k, v)] + Drop(o, k)
      else if |o| + 1 > capacity then ([Entry(k, v)] + o)[..|o|]
      else [Entry(k, v)] + o
    case Remove(k) => Drop(o, k)
  }

  function Run<V>(ops: seq<Op<V>>, capacity: nat): Order<V> {
    if ops == [] then [] else Apply(Run(ops[..|ops| - 1], capacity), ops[|ops| - 1], capacity)
  }

  /** The value of the last put, unless the key was removed since. */
  function Latest<V>(ops: seq<Op<V>>, key: string): Option<V> {
    if ops == [] then None else
    match ops[|ops| - 1]
    case Put(k, v) => if k == key then Some(v) else Latest(ops[..|ops| - 1], key)
    case Remove(k) => if k == key then None else Latest(ops[..|ops| - 1], key)
    case Get(_) => Latest(ops[..|ops| - 1], key)
  }

  /** The other keys named by a get or put since the key was last put or hit. */
  function Since<V>(ops: seq<Op<V>>, key: string, capacity: nat): set<string> {
    if ops == [] then {} else
    var front, op := ops[..|ops| - 1], ops[|ops| - 1];
    if op.key == key then
      (if op.Put? || (op.Get? && Lookup(Run(front, capacity), key).Some?) then {} else Since(front, key, capacity))
    else if op.Remove? then Since(front, key, capacity)
    else Since(front, key, capacity) + {op.key}
  }

  ghost predicate DistinctKeys<V>(o: Order<V>) { forall i, j :: 0 <= i < j < |o| ==> o[i].key != o[j].key }

  /** The entry is there, behind nothing but entries with keys in `ahead`. */
  ghost predicate Behind<V>(o: Order<V>, key: string, value: V, ahead: set<string>, at: nat) {
    && at < |o| && o[at] == Entry(key, value)
    && forall i :: 0 <= i < at ==> o[i].key in ahead
  }

  /** Removing a key from a list of distinct keys cuts out its one entry. */
  lemma {:induction false} DropAt<V>(o: Order<V>, at: nat)
    requires DistinctKeys(o) && at < |o|
    ensures Drop(o, o[at].key) == o[..at] + o[at + 1..]
    decreases |o|
  {
    if at == 0 {
      DropAbsent(o[1..], o[0].key);
    } else {
      DropAt(o[1..], at - 1);
      assert o[1..][..at - 1] == o[1..at] && o[1..][at..] == o[at + 1..];
      assert o[..at] == [o[0]] + o[1..at];
    }
  }

  lemma {:induction false} DropAbsent<V>(o: Order<V>, key: string)
    requires forall i :: 0 <= i < |o| ==> o[i].key != key
    ensures Drop(o, key) == o
  {
    if o != [] { DropAbsent(o[1..], key); }
  }

  lemma {:induction false} LookupAt<V>(o: Order<V>, at: nat)
    requires DistinctKeys(o) && at < |o|
    ensures Lookup(o, o[at].key) == Some(o[at].value)
    decreases |o|
  {
    if at > 0 { LookupAt(o[1..], at - 1); }
  }

  lemma {:induction false} LookupMiss<V>(o: Order<V>, key: string)
    requires Lookup(o, key) == None
    ensures forall i :: 0 <= i < |o| ==> o[i].key != key
  {
    if o != [] {
      LookupMiss(o[1..], key);
      assert forall i :: 0 < i < |o| ==> o[i] == o[1..][i - 1];
    }
  }

  lemma {:induction false} Where<V>(o: Order<V>, key: string) returns (at: nat)
    requires Lookup(o, key).Some?
    ensures at < |o| && o[at] == Entry(key, Lookup(o, key).value)
  {
    if o[0].key == key {
      at := 0;
    } else {
      var p := Where(o[1..], key);
      at := p + 1;
    }
  }

  lemma ApplyDistinct<V>(o: Order<V>, op: Op<V>, capacity: nat)
    requires DistinctKeys(o) && |o| <= capacity
    ensures DistinctKeys(Apply(o, op, capacity)) && |Apply(o, op, capacity)| <= capacity
  {
    hide Drop, Lookup;
    DropDistinct(o, op.key);
    if Lookup(o, op.key).Some? {
      hide DistinctKeys;
      if op.Get? { AheadDistinct(Drop(o, op.key), op.key, Lookup(o, op.key).value); }
      if op.Put? { AheadDistinct(Drop(o, op.key), op.key, op.value); }
    } else {
      LookupMiss(o, op.key);
      if op.Put? { AheadDistinct(o, op.key, op.value); }
    }
  }

  /** What is left without a key is distinct, does not have the key, and is shorter by it. */
  lemma DropDistinct<V>(o: Order<V>, key: string)
    requires DistinctKeys(o)
    ensures DistinctKeys(Drop(o, key)) && forall e :: e in Drop(o, key) ==> e.key != key
    ensures |Drop(o, key)| == |o| - if Lookup(o, key).Some? then 1 else 0
  {
    hide Drop, Lookup;
    if Lookup(o, key).Some? {
      var at := Where(o, key);
      DropAt(o, at);
    } else {
      LookupMiss(o, key);
      DropAbsent(o, key);
    }
  }

  lemma AheadDistinct<V>(o: Order<V>, key: string, value: V)
    requires DistinctKeys(o) && forall e :: e in o ==> e.key != key
    ensures DistinctKeys([Entry(key, value)] + o)
    ensures forall n :: 0 <= n <= |o| + 1 ==> DistinctKeys(([Entry(key, value)] + o)[..n])
  {}

  /** In every run: no key twice, never more than the capacity. */
  lemma {:induction false} RunDistinct<V>(ops: seq<Op<V>>, capacity: nat)
    ensures DistinctKeys(Run(ops, capacity)) && |Run(ops, capacity)| <= capacity
  {
    hide Apply;
    if ops != [] {
      RunDistinct(ops[..|ops| - 1], capacity);
      ApplyDistinct(Run(ops[..|ops| - 1], capacity), ops[|ops| - 1], capacity);
    }
  }

  /** Entries ahead have distinct keys, so there are at most as many as keys allowed ahead. */
  lemma {:induction false} AheadCount<V>(o: Order<V>, ahead: set<string>, at: nat)
    requires DistinctKeys(o) && at <= |o| && forall i :: 0 <= i < at ==> o[i].key in ahead
    ensures at <= |ahead|
    decreases at
  {
    if at > 0 {
      var k := o[at - 1].key;
      assert forall i :: 0 <= i < at - 1 ==> o[i].key in ahead - {k};
      AheadCount(o, ahead - {k}, at - 1);
    }
  }

  lemma CutBehind<V>(o: Order<V>, p: nat, key: string, value: V, ahead: set<string>, at: nat)
    requires Behind(o, key, value, ahead, at) && p < |o| && p != at
    ensures Behind(o[..p] + o[p + 1..], key, value, ahead, if p < at then at - 1 else at)
  {}

  lemma PushBehind<V>(o: Order<V>, e: Entry<V>, key: string, value: V, ahead: set<string>, at: nat, n: nat)
    requires Behind(o, key, value, ahead, at) && at + 1 < n <= |o| + 1
    ensures Behind(([e] + o)[..n], key, value, ahead + {e.key}, at + 1)
  {
    var pushed := ([e] + o)[..n];
    assert forall i :: 0 < i < n ==> pushed[i] == o[i - 1];
  }

  /** Another key's operation lets the entry move back by at most that key. */
  lemma {:induction false} OtherOp<V>(
      o: Order<V>, op: Op<V>, capacity: nat, key: string, value: V, ahead: set<string>, at: nat)
      returns (next: nat)
    requires DistinctKeys(o) && |o| <= capacity && Behind(o, key, value, ahead, at) && op.key != key
    requires |if op.Remove? then ahead else ahead + {op.key}| < capacity
    ensures Behind(Apply(o, op, capacity), key, value, if op.Remove? then ahead else ahead + {op.key}, next)
  {
    if Lookup(o, op.key).Some? {
      next := OtherHit(o, op, capacity, key, value, ahead, at);
    } else {
      next := OtherMiss(o, op, capacity, key, value, ahead, at);
    }
  }

  lemma {:induction false} OtherHit<V>(
      o: Order<V>, op: Op<V>, capacity: nat, key: string, value: V, ahead: set<string>, at: nat)
      returns (next: nat)
    requires DistinctKeys(o) && Behind(o, key, value, ahead, at) && op.key != key && Lookup(o, op.key).Some?
    ensures Behind(Apply(o, op, capacity), key, value, if op.Remove? then ahead else ahead + {op.key}, next)
  {
    hide Drop, Lookup, DistinctKeys, Behind;
    var p := Where(o, op.key);
    DropAt(o, p);
    BehindIs(o, key, value, ahead, at);
    CutBehind(o, p, key, value, ahead, at);
    var cut := o[..p] + o[p + 1..];
    next := if p < at then at - 1 else at;
    if !op.Remove? {
      var e := Entry(op.key, if op.Put? then op.value else Lookup(o, op.key).value);
      BehindIs(cut, key, value, ahead, next);
      PushBehind(cut, e, key, value, ahead, next, |cut| + 1);
      assert ([e] + cut)[..|cut| + 1] == [e] + cut;
      next := next + 1;
    }
  }

  lemma BehindIs<V>(o: Order<V>, key: string, value: V, ahead: set<string>, at: nat)
    requires Behind(o, key, value, ahead, at)
    ensures at < |o| && o[at].key == key
  {}

  lemma BehindMore<V>(o: Order<V>, key: string, value: V, ahead: set<string>, at: nat, k: string)
    requires Behind(o, key, value, ahead, at)
    ensures Behind(o, key, value, ahead + {k}, at)
  {}

  lemma {:induction false} OtherMiss<V>(
      o: Order<V>, op: Op<V>, capacity: nat, key: string, value: V, ahead: set<string>, at: nat)
      returns (next: nat)
    requires DistinctKeys(o) && |o| <= capacity && Behind(o, key, value, ahead, at) && op.key != key
    requires Lookup(o, op.key).None? && |if op.Remove? then ahead else ahead + {op.key}| < capacity
    ensures Behind(Apply(o, op, capacity), key, value, if op.Remove? then ahead else ahead + {op.key}, next)
  {
    hide Drop, Lookup, DistinctKeys;
    match op {
      case Put(k, v) =>
        Ahead(o, k, ahead, at);
        var n := if |o| + 1 > capacity then |o| else |o| + 1;
        PushBehind(o, Entry(k, v), key, value, ahead, at, n);
        assert ([Entry(k, v)] + o)[..|o| + 1] == [Entry(k, v)] + o;
        next := at + 1;
      case Remove(k) =>
        LookupMiss(o, k);
        DropAbsent(o, k);
        next := at;
      case Get(k) =>
        BehindMore(o, key, value, ahead, at, k);
        next := at;
    }
  }

  /** With a new key in front, the entries ahead are still within the allowed keys. */
  lemma Ahead<V>(o: Order<V>, k: string, ahead: set<string>, at: nat)
    requires DistinctKeys(o) && at < |o| && (forall i :: 0 <= i < at ==> o[i].key in ahead) && Lookup(o, k) == None
    ensures at + 1 <= |ahead + {k}|
  {
    hide Lookup;
    LookupMiss(o, k);
    AheadCount(o, ahead - {k}, at);
    assert |ahead + {k}| == |(ahead - {k}) + {k}| == |ahead - {k}| + 1;
  }

  /** What is found is the value of the last put. */
  lemma {:induction false} FoundIsLatest<V>(ops: seq<Op<V>>, key: string, capacity: nat)
    requires Lookup(Run(ops, capacity), key).Some?
    ensures Latest(ops, key) == Lookup(Run(ops, capacity), key)
  {
    hide Run, Lookup;
    if ops == [] {
      EmptyRun<V>(key, capacity);
    } else {
      var front, op := ops[..|ops| - 1], ops[|ops| - 1];
      RunUnfold(ops, capacity);
      RunDistinct(front, capacity);
      ApplyLookup(Run(front, capacity), op, capacity, key);
      if !(op.Put? && op.key == key) { FoundIsLatest(front, key, capacity); }
    }
  }

  lemma EmptyRun<V>(key: string, capacity: nat)
    ensures Lookup(Run<V>([], capacity), key) == None
  {}

  /** An operation leaves a key's value alone, sets it, or takes the key away. */
  lemma ApplyLookup<V>(o: Order<V>, op: Op<V>, capacity: nat, key: string)
    requires DistinctKeys(o) && |o| <= capacity && Lookup(Apply(o, op, capacity), key).Some?
    ensures op.Put? && op.key == key ==> Lookup(Apply(o, op, capacity), key) == Some(op.value)
    ensures op.Remove? ==> op.key != key
    ensures !(op.Put? && op.key == key) ==> Lookup(o, key) == Lookup(Apply(o, op, capacity), key)
  {
    hide Drop, Lookup, DistinctKeys;
    var after := Apply(o, op, capacity);
    ApplyDistinct(o, op, capacity);
    var at := Where(after, key);
    ApplyEntry(o, op, capacity, at);
    if op.Put? && op.key == key {
      PutInFront(o, op, capacity);
      LookupAt(after, 0);
    } else {
      var p :| 0 <= p < |o| && o[p] == after[at];
      LookupAt(o, p);
    }
  }

  lemma PutInFront<V>(o: Order<V>, op: Op<V>, capacity: nat)
    requires op.Put? && Apply(o, op, capacity) != []
    ensures Apply(o, op, capacity)[0] == Entry(op.key, op.value)
  {}

  /** Every entry after an operation was there before, or is the one put; a removed key is gone. */
  lemma {:induction false} ApplyEntry<V>(o: Order<V>, op: Op<V>, capacity: nat, at: nat)
    requires DistinctKeys(o) && at < |Apply(o, op, capacity)|
    ensures var e := Apply(o, op, capacity)[at];
            && ((op.Put? && e.key == op.key) || exists p :: 0 <= p < |o| && o[p] == e)
            && (op.Remove? ==> e.key != op.key)
  {
    hide Drop, Lookup;
    if Lookup(o, op.key).Some? {
      var p := Where(o, op.key);
      DropAt(o, p);
      var cut := o[..p] + o[p + 1..];
      var i := if op.Remove? then at else at - 1;
      if i >= 0 {
        assert Apply(o, op, capacity)[at] == cut[i];
        assert cut[i] == o[if i < p then i else i + 1];
      }
    } else {
      LookupMiss(o, op.key);
      DropAbsent(o, op.key);
      if !op.Put? {
        assert Apply(o, op, capacity)[at] == o[at];
      } else if at > 0 {
        assert Apply(o, op, capacity)[at] == o[at - 1];
      }
    }
  }

  /** The recency guarantee: a key put and not removed is still there with its latest value as long as fewer
      than `capacity` other keys were named since it was last put or hit. */
  lemma Recency<V>(ops: seq<Op<V>>, key: string, capacity: nat)
    requires Latest(ops, key).Some? && |Since(ops, key, capacity)| < capacity
    ensures Lookup(Run(ops, capacity), key) == Latest(ops, key)
  {
    hide Run, Lookup, Since, Latest;
    var at := StillBehind(ops, key, capacity);
    RunDistinct(ops, capacity);
    LookupAt(Run(ops, capacity), at);
  }

  lemma {:induction false} StillBehind<V>(ops: seq<Op<V>>, key: string, capacity: nat) returns (at: nat)
    requires Latest(ops, key).Some? && |Since(ops, key, capacity)| < capacity
    ensures Behind(Run(ops, capacity), key, Latest(ops, key).value, Since(ops, key, capacity), at)
    decreases |ops|
  {
    hide Apply, Run, Lookup;
    var front, op := ops[..|ops| - 1], ops[|ops| - 1];
    var before := Run(front, capacity);
    RunUnfold(ops, capacity);
    RunDistinct(front, capacity);
    if op.key != key {
      if !op.Remove? { Fewer(Since(front, key, capacity), op.key); }
      var p := StillBehind(front, key, capacity);
      at := OtherOp(before, op, capacity, key, Latest(ops, key).value, Since(front, key, capacity), p);
    } else if op.Put? {
      at := 0;
      AtFront(before, op, capacity, op.value);
    } else {
      if Lookup(before, key).None? {
        var p := StillBehind(front, key, capacity);
        LookupAt(before, p);
      }
      at := 0;
      FoundIsLatest(front, key, capacity);
      HitInFront(before, key, capacity);
    }
  }

  lemma HitInFront<V>(o: Order<V>, key: string, capacity: nat)
    requires Lookup(o, key).Some?
    ensures Behind(Apply(o, Get(key), capacity), key, Lookup(o, key).value, {}, 0)
  {}

  lemma RunUnfold<V>(ops: seq<Op<V>>, capacity: nat)
    requires ops != []
    ensures Run(ops, capacity) == Apply(Run(ops[..|ops| - 1], capacity), ops[|ops| - 1], capacity)
  {}

  lemma Fewer(s: set<string>, k: string)
    ensures |s| <= |s + {k}|
  {
    assert |(s + {k}) - s| == |s + {k}| - |s|;
  }

  lemma AtFront<V>(o: Order<V>, op: Op<V>, capacity: nat, value: V)
    requires op.Put? && op.value == value && capacity > 0
    ensures Behind(Apply(o, op, capacity), op.key, value, {}, 0)
  {}
}

/** lruCache as it runs: list elements with an identity, and a map from key to element. */
module LruCache {
  import opened Types
  import opened LruModel

  datatype Element<V> = Element(id: nat, entry: Entry<V>)

  function Entries<V>(order: seq<Element<V>>): (r: Order<V>)
    ensures |r| == |order| && forall i :: 0 <= i < |r| ==> r[i] == order[i].entry
  {
    if order == [] then [] else Entries(order[..|order| - 1]) + [order[|order| - 1].entry]
  }

  /** The list without the element at `at`. */
  function Cut<V>(order: seq<Element<V>>, at: nat): seq<Element<V>>
    requires at < |order|
  {
    order[..at] + order[at + 1..]
  }

  ghost predicate Has<V>(order: seq<Element<V>>, k: string) {
    exists i :: 0 <= i < |order| && order[i].entry.key == k
  }

  /** Every element is the one the map gives for its key. */
  ghost predicate Linked<V>(order: seq<Element<V>>, items: map<string, nat>) {
    forall i :: 0 <= i < |order| ==> order[i].entry.key in items && items[order[i].entry.key] == order[i].id
  }

  ghost predicate Onto<V>(order: seq<Element<V>>, items: map<string, nat>) {
    forall k :: k in items ==> Has(order, k)
  }

  ghost predicate OneEach(items: map<string, nat>, next: nat) {
    && (forall k :: k in items ==> items[k] < next)
    && (forall j, k :: j in items && k in items && items[j] == items[k] ==> j == k)
  }

  lemma {:induction false} EntriesFront<V>(e: Element<V>, rest: seq<Element<V>>)
    ensures Entries([e] + rest) == [e.entry] + Entries(rest)
  {
    hide Entries;
    var all := [e] + rest;
    assert forall i :: 0 < i < |all| ==> all[i] == rest[i - 1];
  }

  lemma {:induction false} EntriesCut<V>(order: seq<Element<V>>, at: nat)
    requires at < |order|
    ensures Entries(Cut(order, at)) == Entries(order)[..at] + Entries(order)[at + 1..]
  {
    hide Entries;
  }

  lemma {:induction false} CutLinked<V>(order: seq<Element<V>>, items: map<string, nat>, at: nat)
    requires at < |order| && Linked(order, items)
    ensures Linked(Cut(order, at), items)
  {
    var cut := Cut(order, at);
    assert forall i :: 0 <= i < |cut| ==> cut[i] == order[if i < at then i else i + 1];
  }

  lemma {:induction false} FrontLinked<V>(e: Element<V>, rest: seq<Element<V>>, items: map<string, nat>)
    requires Linked(rest, items) && e.entry.key in items && items[e.entry.key] == e.id
    ensures Linked([e] + rest, items)
  {}

  /** Cutting an element out loses no key but its own. */
  lemma {:induction false} CutHas<V>(order: seq<Element<V>>, at: nat, k: string)
    requires at < |order| && Has(order, k) && k != order[at].entry.key
    ensures Has(Cut(order, at), k)
  {
    var i :| 0 <= i < |order| && order[i].entry.key == k;
    assert Cut(order, at)[if i < at then i else i - 1].entry.key == k;
  }

  lemma {:induction false} FrontHas<V>(e: Element<V>, rest: seq<Element<V>>, k: string)
    requires k == e.entry.key || Has(rest, k)
    ensures Has([e] + rest, k)
  {
    if k == e.entry.key {
      assert ([e] + rest)[0].entry.key == k;
    } else {
      var i :| 0 <= i < |rest| && rest[i].entry.key == k;
      assert ([e] + rest)[i + 1].entry.key == k;
    }
  }

  class Cache<V> {
    const capacity: nat
    var order: seq<Element<V>>
    var items: map<string, nat>
    var nextId: nat

    /** Keys are distinct and the map points each key at its own element. */
    ghost predicate Valid()
      reads this
    {
      && |order| <= capacity && DistinctKeys(Entries(order))
      && Linked(order, items) && Onto(order, items) && OneEach(items, nextId)
    }

    ghost function View(): Order<V>
      reads this
    {
      Entries(order)
    }

    constructor (capacity: nat)
      ensures Valid() && View() == [] && this.capacity == capacity
    {
      this.capacity := capacity;
      order, items, nextId := [], map[], 0;
    }

    /** Where the list holds an element. */
    method Position(key: string) returns (at: nat)
      requires Valid() && key in items
      ensures at < |order| && order[at].id == items[key]
    {
      assert Has(order, key);
      var id := items[key];
      at := 0;
      while order[at].id != id
        invariant at < |order| && forall i :: 0 <= i < at ==> order[i].id != id
        decreases |order| - at
      {
        at := at + 1;
      }
    }

    lemma FoundAt(key: string, at: nat)
      requires Valid() && key in items && at < |order| && order[at].id == items[key]
      ensures order[at].entry.key == key && Lookup(View(), key) == Some(order[at].entry.value)
      ensures Drop(View(), key) == Entries(Cut(order, at))
    {
      hide Lookup, Drop;
      LookupAt(View(), at);
      DropAt(View(), at);
      EntriesCut(order, at);
    }

    lemma NotThere(key: string)
      requires Valid() && key !in items
      ensures Lookup(View(), key) == None && Drop(View(), key) == View()
    {
      hide Drop, Lookup;
      assert forall i :: 0 <= i < |order| ==> View()[i].key != key;
      if Lookup(View(), key).Some? { var at := Where(View(), key); }
      DropAbsent(View(), key);
    }

    /** MoveToFront, with the value the element then has. */
    method ToFront(key: string, at: nat, value: V)
      requires Valid() && key in items && at < |order| && order[at].id == items[key]
      modifies this`order
      ensures Valid() && View() == Apply(old(View()), Op.Put(key, value), capacity)
    {
      hide Lookup, Drop, DistinctKeys, Entries, Linked, Has, OneEach;
      FoundAt(key, at);
      ApplyDistinct(View(), Op.Put(key, value), capacity);
      var e := Element(order[at].id, Entry(key, value));
      CutLinked(order, items, at);
      FrontLinked(e, Cut(order, at), items);
      forall k | k in items ensures Has([e] + Cut(order, at), k) {
        if k != key { CutHas(order, at, k); }
        FrontHas(e, Cut(order, at), k);
      }
      EntriesFront(e, Cut(order, at));
      order := [e] + Cut(order, at);
    }

    method Get(key: string) returns (r: Option<V>)
      requires Valid()
      modifies this`order
      ensures Valid() && r == Lookup(old(View()), key) && View() == Apply(old(View()), Op.Get(key), capacity)
    {
      hide Lookup, Drop, DistinctKeys, Entries, Linked, Onto, OneEach;
      if key !in items {
        NotThere(key);
        return None;
      }
      var at := Position(key);
      FoundAt(key, at);
      var value := order[at].entry.value;
      ToFront(key, at, value);
      return Some(value);
    }

    method Put(key: string, value: V)
      requires Valid()
      modifies this
      ensures Valid() && View() == Apply(old(View()), Op.Put(key, value), capacity)
    {
      hide Lookup, Drop, DistinctKeys, Entries, Linked, Onto, OneEach, Has;
      if key in items {
        var at := Position(key);
        ToFront(key, at, value);
      } else {
        NotThere(key);
        ApplyDistinct(View(), Op.Put(key, value), capacity);
        PushFront(key, value);
        if |order| > capacity { DropBack(); }
      }
    }

    /** A new element in front, possibly one too many. */
    method PushFront(key: string, value: V)
      requires Valid() && key !in items
      modifies this
      ensures |order| == old(|order|) + 1 && View() == [Entry(key, value)] + old(View())
      ensures Linked(order, items) && Onto(order, items) && OneEach(items, nextId)
      ensures DistinctKeys(View())
    {
      hide Lookup, Drop, Entries, Has;
      NotThere(key);
      NewDistinct(View(), key, value);
      var e := Element(nextId, Entry(key, value));
      EntriesFront(e, order);
      forall k | k in items || k == key ensures Has([e] + order, k) { FrontHas(e, order, k); }
      order := [e] + order;
      items := items[key := nextId];
      nextId := nextId + 1;
    }

    /** The oldest element goes, with its key. */
    method DropBack()
      requires order != [] && DistinctKeys(View())
      requires Linked(order, items) && Onto(order, items) && OneEach(items, nextId)
      modifies this`order, this`items
      ensures View() == old(View())[..|old(order)| - 1]
      ensures Linked(order, items) && Onto(order, items) && OneEach(items, nextId)
    {
      hide Lookup, Drop;
      var at := |order| - 1;
      EntriesCut(order, at);
      RemoveAt(at);
    }

    /** list.Remove and delete for the element at `at`. */
    method RemoveAt(at: nat)
      requires at < |order| && DistinctKeys(View())
      requires Linked(order, items) && Onto(order, items) && OneEach(items, nextId)
      modifies this`order, this`items
      ensures order == Cut(old(order), at)
      ensures Linked(order, items) && Onto(order, items) && OneEach(items, nextId)
    {
      hide Has, Entries;
      var gone := order[at].entry.key;
      CutLinked(order, items, at);
      CutLacks(order, at);
      forall k | k in items && k != gone ensures Has(Cut(order, at), k) { CutHas(order, at, k); }
      order := Cut(order, at);
      items := items - {gone};
    }

    static lemma {:induction false} CutLacks(order: seq<Element<V>>, at: nat)
      requires at < |order| && DistinctKeys(Entries(order))
      ensures forall i :: 0 <= i < |Cut(order, at)| ==> Cut(order, at)[i].entry.key != order[at].entry.key
    {
      var cut := Cut(order, at);
      forall i | 0 <= i < |cut| ensures cut[i].entry.key != order[at].entry.key {
        var j := if i < at then i else i + 1;
        assert cut[i] == order[j] && Entries(order)[j].key != Entries(order)[at].key;
      }
    }

    method Remove(key: string)
      requires Valid()
      modifies this`order, this`items
      ensures Valid() && View() == Apply(old(View()), Op.Remove(key), capacity)
    {
      hide Lookup, Drop, DistinctKeys, Entries, Linked, Onto, OneEach, Has;
      ApplyDistinct(View(), Op.Remove(key), capacity);
      if key in items {
        var at := Position(key);
        FoundAt(key, at);
        RemoveAt(at);
      } else {
        NotThere(key);
      }
    }
  }

  lemma {:induction false} NewDistinct<V>(o: Order<V>, key: string, value: V)
    requires DistinctKeys(o) && Lookup(o, key) == None
    ensures DistinctKeys([Entry(key, value)] + o)
  {
    hide Lookup;
    LookupMiss(o, key);
  }
}

/** The searches over sorted tables, each against a linear scan. */
module Searches {
  import opened Types

  ghost predicate Monotone(n: nat, f: nat -> bool) { forall i, j :: 0 <= i <= j < n && f(i) ==> f(j) }

  /** sort.Search: halving, keeping a false value before and a true value at the bound. */
  method Search(n: nat, f: nat -> bool) returns (i: nat)
    ensures i <= n && (i > 0 ==> !f(i - 1)) && (i < n ==> f(i))
    ensures Monotone(n, f) ==> forall k :: 0 <= k < n ==> (f(k) <==> k >= i)
  {
    i := 0;
    var j := n;
    while i < j
      invariant i <= j <= n && (i > 0 ==> !f(i - 1)) && (j < n ==> f(j))
    {
      var h := (i + j) / 2;
      if f(h) { j := h; } else { i := h + 1; }
    }
  }

  datatype MapsEntry = MapsEntry(start: u64, end: u64, offset: u64, path: string)

  predicate Contains(e: MapsEntry, pc: u64) { e.start <= pc < e.end }

  /** Mappings in address order without overlap, none of them empty. */
  ghost predicate Disjoint(entries: seq<MapsEntry>) {
    && (forall i :: 0 <= i < |entries| ==> entries[i].start < entries[i].end)
    && forall i, j :: 0 <= i < j < |entries| ==> entries[i].end <= entries[j].start
  }

  /** The first mapping that contains pc, by looking at each. */
  function ScanContaining(entries: seq<MapsEntry>, pc: u64): Option<MapsEntry> {
    if entries == [] then None
    else if Contains(entries[0], pc) then Some(entries[0])
    else ScanContaining(entries[1..], pc)
  }

  lemma {:induction false} ScanFinds(entries: seq<MapsEntry>, pc: u64, at: nat)
    requires at < |entries| && Contains(entries[at], pc) && forall i :: 0 <= i < at ==> !Contains(entries[i], pc)
    ensures ScanContaining(entries, pc) == Some(entries[at])
    decreases at
  {
    if at > 0 { ScanFinds(entries[1..], pc, at - 1); }
  }

  lemma {:induction false} ScanMisses(entries: seq<MapsEntry>, pc: u64)
    requires forall i :: 0 <= i < |entries| ==> !Contains(entries[i], pc)
    ensures ScanContaining(entries, pc) == None
  {
    if entries != [] { ScanMisses(entries[1..], pc); }
  }

  /** findContaining. What it returns always contains pc; on disjoint mappings it is what a scan finds, and nothing
      is returned only if no mapping contains pc. */
  method FindContaining(entries: seq<MapsEntry>, pc: u64) returns (r: Option<MapsEntry>)
    ensures r.Some? ==> r.value in entries && r.value.start <= pc < r.value.end
    ensures Disjoint(entries) && r.None? ==> forall e :: e in entries ==> pc < e.start || e.end <= pc
    ensures Disjoint(entries) ==> r == ScanContaining(entries, pc)
  {
    hide ScanContaining;
    if |entries| == 0 {
      ScanMisses(entries, pc);
      return None;
    }
    var f := (i: nat) => i < |entries| && entries[i].end > pc;
    var idx := Search(|entries|, f);
    if Disjoint(entries) { Located(entries, pc, f, idx); }
    if idx >= |entries| { return None; }
    if entries[idx].start <= pc < entries[idx].end { return Some(entries[idx]); }
    return None;
  }

  lemma Located(entries: seq<MapsEntry>, pc: u64, f: nat -> bool, idx: nat)
    requires Disjoint(entries) && idx <= |entries|
    requires forall i :: 0 <= i < |entries| ==> (f(i) <==> entries[i].end > pc)
    requires Monotone(|entries|, f) ==> forall k :: 0 <= k < |entries| ==> (f(k) <==> k >= idx)
    ensures ScanContaining(entries, pc) ==
            if idx < |entries| && Contains(entries[idx], pc) then Some(entries[idx]) else None
    ensures forall i :: 0 <= i < |entries| && Contains(entries[i], pc) ==> i == idx
  {
    hide ScanContaining;
    assert Monotone(|entries|, f);
    if idx < |entries| && Contains(entries[idx], pc) {
      ScanFinds(entries, pc, idx);
    } else {
      ScanMisses(entries, pc);
    }
  }

  datatype Symbol = Symbol(addr: u64, size: u64, name: string)

  ghost predicate SortedSymbols(symbols: seq<Symbol>) {
    forall i, j :: 0 <= i < j < |symbols| ==> symbols[i].addr <= symbols[j].addr
  }

  /** The last symbol that starts at or below the address, by looking at each. */
  function ScanBelow(symbols: seq<Symbol>, addr: u64): Option<Symbol> {
    if symbols == [] then None
    else if symbols[|symbols| - 1].addr <= addr then Some(symbols[|symbols| - 1])
    else ScanBelow(symbols[..|symbols| - 1], addr)
  }

  lemma {:induction false} ScanBelowAt(symbols: seq<Symbol>, addr: u64, n: nat)
    requires n <= |symbols| && (n > 0 ==> symbols[n - 1].addr <= addr)
    requires forall i :: n <= i < |symbols| ==> symbols[i].addr > addr
    ensures ScanBelow(symbols, addr) == if n == 0 then None else Some(symbols[n - 1])
    decreases |symbols|
  {
    if n < |symbols| { ScanBelowAt(symbols[..|symbols| - 1], addr, n); }
  }

  /** Symbol `i` starts at or below the address and no later one does. */
  ghost predicate Nearest(symbols: seq<Symbol>, addr: u64, i: int) {
    && 0 <= i < |symbols| && symbols[i].addr <= addr
    && forall j :: i < j < |symbols| ==> addr < symbols[j].addr
  }

  /** Every symbol starts above the address. */
  ghost predicate AllAbove(symbols: seq<Symbol>, addr: u64) { forall s :: s in symbols ==> addr < s.addr }

  /** The scan finds the nearest symbol, and nothing only if there is none. */
  lemma {:induction false} ScanIsNearest(symbols: seq<Symbol>, addr: u64)
    ensures forall i :: Nearest(symbols, addr, i) ==> ScanBelow(symbols, addr) == Some(symbols[i])
    ensures ScanBelow(symbols, addr).None? <==> AllAbove(symbols, addr)
    ensures ScanBelow(symbols, addr).Some? ==>
              exists i :: Nearest(symbols, addr, i) && ScanBelow(symbols, addr).value == symbols[i]
  {
    if symbols != [] {
      var front, last := symbols[..|symbols| - 1], symbols[|symbols| - 1];
      assert symbols == front + [last];
      if last.addr <= addr {
        assert Nearest(symbols, addr, |symbols| - 1) && last in symbols;
      } else {
        ScanIsNearest(front, addr);
        forall i ensures Nearest(symbols, addr, i) <==> Nearest(front, addr, i) {}
      }
    }
  }

  /** The search shared by kernel and ELF lookup. */
  method LastAtOrBelow(symbols: seq<Symbol>, addr: u64) returns (r: Option<Symbol>)
    ensures r.Some? ==> r.value in symbols && r.value.addr <= addr
    ensures SortedSymbols(symbols) ==> r == ScanBelow(symbols, addr)
  {
    hide ScanBelow;
    var f := (i: nat) => i < |symbols| && symbols[i].addr > addr;
    var idx := Search(|symbols|, f);
    if SortedSymbols(symbols) {
      assert Monotone(|symbols|, f);
      assert forall i :: idx <= i < |symbols| ==> f(i);
      ScanBelowAt(symbols, addr, idx);
    }
    if idx == 0 { return None; }
    return Some(symbols[idx - 1]);
  }

  datatype Quality = Full | FpOnly | Degraded | Failed

  datatype SymbolFrame = SymbolFrame(pc: u64, moduleName: string, symbol: string, offset: u64, quality: Quality)

  /** What kernel symbolization means: the nearest symbol at or below pc. */
  function KernelFrame(kallsyms: seq<Symbol>, pc: u64): SymbolFrame {
    if kallsyms == [] || pc == 0 then SymbolFrame(pc, "", "", 0, Failed) else
    match ScanBelow(kallsyms, pc)
    case Some(s) => if s.addr <= pc then SymbolFrame(pc, "kernel", s.name, pc - s.addr, Full)
                    else SymbolFrame(pc, "kernel", "", 0, Failed)
    case None => SymbolFrame(pc, "kernel", "", 0, Failed)
  }

  /** SymbolizeKernel: name and offset of the nearest symbol; below the first symbol only the module is known, and
      without symbols or for pc 0 nothing is. */
  method SymbolizeKernel(kallsyms: seq<Symbol>, pc: u64) returns (frame: SymbolFrame)
    requires SortedSymbols(kallsyms)
    ensures frame == KernelFrame(kallsyms, pc)
    ensures frame.pc == pc && (frame.quality == Full || frame.quality == Failed)
    ensures frame.quality == Failed ==> frame.symbol == "" && frame.offset == 0
    ensures frame.moduleName == (if kallsyms == [] || pc == 0 then "" else "kernel")
    ensures pc != 0 ==> forall i :: Nearest(kallsyms, pc, i) ==>
              frame.quality == Full && frame.symbol == kallsyms[i].name && kallsyms[i].addr + frame.offset == pc
    ensures frame.quality == Failed <==> pc == 0 || AllAbove(kallsyms, pc)
  {
    ScanIsNearest(kallsyms, pc);
    hide ScanBelow, Nearest;
    if |kallsyms| == 0 || pc == 0 { return SymbolFrame(pc, "", "", 0, Failed); }
    var s := LastAtOrBelow(kallsyms, pc);
    if s.None? { return SymbolFrame(pc, "kernel", "", 0, Failed); }
    return SymbolFrame(pc, "kernel", s.value.name, pc - s.value.addr, Full);
  }

  /** The upper end of a symbol as 64-bit addition computes it. */
  function WrappedEnd(s: Symbol): u64 { (s.addr + s.size) % 0x1_0000_0000_0000_0000 }

  /** Symbols without a size count as covering everything up to the next one. */
  predicate Covers(s: Symbol, addr: u64) { s.size == 0 || addr < s.addr + s.size }

  function ElfSymbol(symbols: seq<Symbol>, addr: u64): Option<Symbol> {
    match ScanBelow(symbols, addr)
    case Some(s) => if s.size == 0 || addr < WrappedEnd(s) then Some(s) else None
    case None => None
  }

  /** The symbol has no size, or covers the address and ends below 2^64. */
  predicate Found(s: Symbol, addr: u64) {
    s.size == 0 || (addr < s.addr + s.size && s.addr + s.size < 0x1_0000_0000_0000_0000)
  }

  /** lookupElfSymbol: the nearest symbol, if it has no size or covers the address and ends below 2^64. */
  method LookupElfSymbol(symbols: seq<Symbol>, addr: u64) returns (r: Option<Symbol>)
    requires SortedSymbols(symbols)
    ensures r == ElfSymbol(symbols, addr)
    ensures forall i :: Nearest(symbols, addr, i) ==> r == if Found(symbols[i], addr) then Some(symbols[i]) else None
    ensures AllAbove(symbols, addr) ==> r == None
  {
    ElfSymbolExact(symbols, addr);
    ScanIsNearest(symbols, addr);
    hide ScanBelow, Nearest, AllAbove;
    if |symbols| == 0 {
      ScanBelowAt(symbols, addr, 0);
      return None;
    }
    var s := LastAtOrBelow(symbols, addr);
    if s.None? { return None; }
    if s.value.size == 0 || addr < WrappedEnd(s.value) { return s; }
    return None;
  }

  /** The nearest symbol is returned exactly when it has no size, or covers the address and ends below 2^64. */
  lemma ElfSymbolExact(symbols: seq<Symbol>, addr: u64)
    ensures ElfSymbol(symbols, addr).Some? <==>
            && ScanBelow(symbols, addr).Some?
            && var s := ScanBelow(symbols, addr).value;
               Covers(s, addr) && (s.size == 0 || s.addr + s.size < 0x1_0000_0000_0000_0000)
    ensures forall i :: Nearest(symbols, addr, i) ==>
              ElfSymbol(symbols, addr) == if Found(symbols[i], addr) then Some(symbols[i]) else None
    ensures AllAbove(symbols, addr) ==> ElfSymbol(symbols, addr) == None
  {
    ScanIsNearest(symbols, addr);
    hide ScanBelow;
  }

  /** A symbol of two bytes at the last address covers that address and is not found. */
  lemma TopSymbolMissed()
    ensures var s := Symbol(0xFFFF_FFFF_FFFF_FFFF, 2, "top");
            Covers(s, s.addr) && ElfSymbol([s], s.addr) == None
  {
    var s := Symbol(0xFFFF_FFFF_FFFF_FFFF, 2, "top");
    assert ScanBelow([s], s.addr) == Some(s);
  }
}
