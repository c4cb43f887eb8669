/** A Go map whose entries point into a container/list, as the collector uses five times:
    the list's front is the most recently inserted key. List elements have identities, so
    an element that its map entry no longer points at can stay behind in the list. */
module KeyedList {
  import opened Types
  import opened Finite

  datatype Node = Node(id: nat, key: u64)

  /** container/list: nodes front to back; `next` is the identity of the next element. */
  datatype List = List(nodes: seq<Node>, next: nat)

  datatype Entry<+V> = Entry(at: int, value: V, elem: nat)

  datatype Lru<V> = Lru(items: map<u64, Entry<V>>, list: List)

  function EmptyList(): List { List([], 0) }

  function Empty<V>(): Lru<V> { Lru(map[], EmptyList()) }

  function Without(nodes: seq<Node>, id: nat): seq<Node> {
    if nodes == [] then []
    else if nodes[0].id == id then nodes[1..]
    else [nodes[0]] + Without(nodes[1..], id)
  }

  // Operations of container/list

  function PushFront(l: List, key: u64): List { List([Node(l.next, key)] + l.nodes, l.next + 1) }

  function Remove(l: List, id: nat): List { l.(nodes := Without(l.nodes, id)) }

  function MoveToFront(l: List, node: Node): List { l.(nodes := [node] + Without(l.nodes, node.id)) }

  // Operations on map and list together

  function Push<V>(l: Lru<V>, key: u64, at: int, value: V): Lru<V> {
    Lru(l.items[key := Entry(at, value, l.list.next)], PushFront(l.list, key))
  }

  function Delete<V>(l: Lru<V>, key: u64): Lru<V>
    requires key in l.items
  {
    Lru(l.items - {key}, Remove(l.list, l.items[key].elem))
  }

  function Touch<V>(l: Lru<V>, key: u64, at: int, value: V): Lru<V>
    requires key in l.items
  {
    var elem := l.items[key].elem;
    Lru(l.items[key := Entry(at, value, elem)], MoveToFront(l.list, Node(elem, key)))
  }

  function BackKey<V>(l: Lru<V>): u64
    requires l.list.nodes != []
  {
    l.list.nodes[|l.list.nodes| - 1].key
  }

  /** Drops the back element and whatever entry its key has now. */
  function PopBack<V>(l: Lru<V>): Lru<V>
    requires l.list.nodes != []
  {
    Lru(l.items - {BackKey(l)}, l.list.(nodes := l.list.nodes[..|l.list.nodes| - 1]))
  }

  function Popped<V>(l: Lru<V>): seq<V>
    requires l.list.nodes != []
  {
    if BackKey(l) in l.items then [l.items[BackKey(l)].value] else []
  }

  /** Evicts from the back until at most `cap` elements are left. */
  function Trim<V>(l: Lru<V>, cap: nat): Lru<V>
    decreases |l.list.nodes|
  {
    if |l.list.nodes| <= cap then l else Trim(PopBack(l), cap)
  }

  function Trimmed<V>(l: Lru<V>, cap: nat): seq<V>
    decreases |l.list.nodes|
  {
    if |l.list.nodes| <= cap then [] else Popped(l) + Trimmed(PopBack(l), cap)
  }

  predicate Stale<V>(l: Lru<V>, key: u64, cutoff: int) {
    key in l.items && l.items[key].at < cutoff
  }

  /** Visits `keys` in the given order and deletes the entries older than `cutoff`. */
  function Expire<V>(l: Lru<V>, keys: seq<u64>, cutoff: int): Lru<V>
    decreases |keys|
  {
    if keys == [] then l
    else Expire(if Stale(l, keys[0], cutoff) then Delete(l, keys[0]) else l, keys[1..], cutoff)
  }

  function Expired<V>(l: Lru<V>, keys: seq<u64>, cutoff: int): seq<V>
    decreases |keys|
  {
    if keys == [] then []
    else if Stale(l, keys[0], cutoff) then
      [l.items[keys[0]].value] + Expired(Delete(l, keys[0]), keys[1..], cutoff)
    else Expired(l, keys[1..], cutoff)
  }

  /** What a Go range over the map visits: every key once, in some order. */
  ghost predicate Enumerates<V>(order: seq<u64>, items: map<u64, Entry<V>>) {
    && (forall k :: k in order <==> k in items)
    && (forall i, j :: 0 <= i < j < |order| ==> order[i] != order[j])
  }

  // Well-formedness

  ghost predicate DistinctNodes(nodes: seq<Node>) {
    forall i, j :: 0 <= i < j < |nodes| ==> nodes[i].id != nodes[j].id
  }

  /** Every entry's list element is in the list, under the entry's own key. */
  ghost predicate Covered<V>(l: Lru<V>) {
    && DistinctNodes(l.list.nodes)
    && (forall n :: n in l.list.nodes ==> n.id < l.list.next)
    && (forall k :: k in l.items ==> Node(l.items[k].elem, k) in l.list.nodes)
  }

  /** Map and list agree: besides being covered, the list holds nothing else. */
  ghost predicate Agree<V>(l: Lru<V>) {
    && Covered(l)
    && (forall n :: n in l.list.nodes ==> n.key in l.items && l.items[n.key].elem == n.id)
  }

  // Lists

  lemma WithoutShorter(nodes: seq<Node>, id: nat)
    ensures |Without(nodes, id)| <= |nodes|
  {
  }

  lemma {:induction false} WithoutMembers(nodes: seq<Node>, id: nat)
    requires DistinctNodes(nodes)
    ensures DistinctNodes(Without(nodes, id))
    ensures forall n :: n in Without(nodes, id) <==> n in nodes && n.id != id
  {
    if nodes != [] {
      var rest := nodes[1..];
      assert nodes == [nodes[0]] + rest;
      WithoutMembers(rest, id);
      if nodes[0].id == id {
        forall n | n in rest ensures n.id != id {
          var i :| 0 <= i < |rest| && rest[i] == n;
          assert nodes[0].id != nodes[i + 1].id;
        }
      } else {
        var w := Without(rest, id);
        forall i, j | 0 <= i < j < |[nodes[0]] + w| ensures ([nodes[0]] + w)[i].id != ([nodes[0]] + w)[j].id {
          if i == 0 {
            assert w[j - 1] in w && w[j - 1] in rest;
            var m :| 0 <= m < |rest| && rest[m] == w[j - 1];
            assert nodes[0].id != nodes[m + 1].id;
          }
        }
      }
    }
  }

  /** `after` is `before` without one node, in the same order. */
  ghost predicate DropsOne(before: seq<Node>, after: seq<Node>, id: nat) {
    exists i :: 0 <= i < |before| && before[i].id == id && after == before[..i] + before[i + 1..]
  }

  lemma DropsAt(before: seq<Node>, after: seq<Node>, id: nat, i: nat)
    requires i < |before| && before[i].id == id && after == before[..i] + before[i + 1..]
    ensures DropsOne(before, after, id)
  {}

  lemma DropsBehind(n: Node, before: seq<Node>, after: seq<Node>, id: nat)
    requires DropsOne(before, after, id)
    ensures DropsOne([n] + before, [n] + after, id)
  {
    var i :| 0 <= i < |before| && before[i].id == id && after == before[..i] + before[i + 1..];
    hide DropsOne;
    var all := [n] + before;
    assert all[..i + 1] == [n] + before[..i];
    assert all[i + 2..] == before[i + 1..];
    DropsAt(all, [n] + after, id, i + 1);
  }

  lemma {:induction false} WithoutDrops(nodes: seq<Node>, node: Node)
    requires node in nodes
    ensures DropsOne(nodes, Without(nodes, node.id), node.id)
    ensures |Without(nodes, node.id)| == |nodes| - 1
  {
    hide DropsOne;
    if nodes[0].id == node.id {
      DropsAt(nodes, nodes[1..], node.id, 0);
    } else {
      assert nodes == [nodes[0]] + nodes[1..];
      WithoutDrops(nodes[1..], node);
      DropsBehind(nodes[0], nodes[1..], Without(nodes[1..], node.id), node.id);
    }
  }

  // Preservation of Covered and Agree

  lemma PushCovered<V>(l: Lru<V>, key: u64, at: int, value: V)
    requires Covered(l)
    ensures Covered(Push(l, key, at, value))
  {
  }

  /** Inserting keeps map and list in agreement exactly when the key was free. */
  lemma PushAgree<V>(l: Lru<V>, key: u64, at: int, value: V)
    requires Agree(l)
    ensures Agree(Push(l, key, at, value)) <==> key !in l.items
  {
  }

  lemma DeleteAgree<V>(l: Lru<V>, key: u64)
    requires Covered(l) && key in l.items
    ensures Covered(Delete(l, key)) && (Agree(l) ==> Agree(Delete(l, key)))
  {
    hide Without;
    WithoutMembers(l.list.nodes, l.items[key].elem);
    SeparateElems(l, key);
  }

  /** Removing an entry with its element: the other elements keep their order. */
  lemma DeleteCovered<V>(l: Lru<V>, key: u64)
    requires Covered(l) && key in l.items
    ensures Covered(Delete(l, key))
    ensures Agree(l) ==> Agree(Delete(l, key))
    ensures |Delete(l, key).list.nodes| == |l.list.nodes| - 1
    ensures DropsOne(l.list.nodes, Delete(l, key).list.nodes, l.items[key].elem)
  {
    DeleteAgree(l, key);
    assert Node(l.items[key].elem, key) in l.list.nodes;
    hide Without, DropsOne, Covered, Agree;
    WithoutDrops(l.list.nodes, Node(l.items[key].elem, key));
  }

  /** Two entries never share a list element. */
  lemma SeparateElems<V>(l: Lru<V>, key: u64)
    requires Covered(l) && key in l.items
    ensures forall k :: k in l.items && k != key ==> l.items[k].elem != l.items[key].elem
  {
  }

  lemma PopBackCovered<V>(l: Lru<V>)
    requires Covered(l) && l.list.nodes != []
    ensures Covered(PopBack(l))
    ensures Agree(l) ==> Agree(PopBack(l))
  {
  }

  lemma TouchAgree<V>(l: Lru<V>, key: u64, at: int, value: V)
    requires Agree(l) && key in l.items
    ensures Agree(Touch(l, key, at, value))
    ensures |Touch(l, key, at, value).list.nodes| == |l.list.nodes|
  {
    var node := Node(l.items[key].elem, key);
    var t := Touch(l, key, at, value);
    var w := Without(l.list.nodes, node.id);
    WithoutMembers(l.list.nodes, node.id);
    WithoutDrops(l.list.nodes, node);
    assert t.list.nodes == [node] + w;
    forall i, j | 0 <= i < j < |t.list.nodes| ensures t.list.nodes[i].id != t.list.nodes[j].id {
      assert w[j - 1] in w;
    }
    SeparateElems(l, key);
    forall k | k in t.items ensures Node(t.items[k].elem, k) in t.list.nodes {
      if k != key { assert Node(l.items[k].elem, k) in w; }
    }
  }

  lemma {:induction false} TrimCovered<V>(l: Lru<V>, cap: nat)
    requires Covered(l)
    ensures Covered(Trim(l, cap)) && |Trim(l, cap).list.nodes| <= cap
    ensures Agree(l) ==> Agree(Trim(l, cap))
    decreases |l.list.nodes|
  {
    if |l.list.nodes| > cap {
      PopBackCovered(l);
      TrimCovered(PopBack(l), cap);
    }
  }

  /** Inserting a free key within a capacity: the new entry is there, and a full list gives up its back element. */
  lemma InsertExact<V>(l: Lru<V>, key: u64, at: int, value: V, cap: nat)
    requires Agree(l) && key !in l.items && |l.list.nodes| <= cap && cap > 0
    ensures var r, entry := Trim(Push(l, key, at, value), cap), Entry(at, value, l.list.next);
            if |l.list.nodes| < cap then r.items == l.items[key := entry] && Trimmed(Push(l, key, at, value), cap) == []
            else && l.list.nodes[cap - 1] in l.list.nodes && BackKey(l) in l.items
                 && r.items == (l.items - {BackKey(l)})[key := entry]
                 && Trimmed(Push(l, key, at, value), cap) == [l.items[BackKey(l)].value]
  {
    var p := Push(l, key, at, value);
    if |l.list.nodes| == cap {
      assert l.list.nodes[cap - 1] in l.list.nodes;
      assert p.list.nodes[cap] == l.list.nodes[cap - 1];
      assert Trim(PopBack(p), cap) == PopBack(p) && Trimmed(PopBack(p), cap) == [];
      assert PopBack(p).items == (l.items - {BackKey(l)})[key := Entry(at, value, l.list.next)];
    }
  }

  // Order of insertion

  /** Elements get rising identities as they are made, and stand newest first. */
  ghost predicate NewestFirst(l: List) {
    && (forall n :: n in l.nodes ==> n.id < l.next)
    && forall i, j :: 0 <= i < j < |l.nodes| ==> l.nodes[i].id > l.nodes[j].id
  }

  lemma NewestRest(nodes: seq<Node>, next: nat)
    requires nodes != [] && NewestFirst(List(nodes, next))
    ensures NewestFirst(List(nodes[1..], next)) && forall n :: n in nodes[1..] ==> n.id < nodes[0].id
  {
    assert forall i :: 0 <= i < |nodes[1..]| ==> nodes[1..][i] == nodes[i + 1];
  }

  lemma NewestAhead(first: Node, rest: seq<Node>, next: nat)
    requires NewestFirst(List(rest, next)) && first.id < next && forall n :: n in rest ==> n.id < first.id
    ensures NewestFirst(List([first] + rest, next))
  {}

  lemma {:induction false} WithoutNewest(nodes: seq<Node>, id: nat, next: nat)
    requires NewestFirst(List(nodes, next))
    ensures NewestFirst(List(Without(nodes, id), next)) && forall n :: n in Without(nodes, id) ==> n in nodes
  {
    if nodes != [] {
      assert nodes[0].id < next && nodes == [nodes[0]] + nodes[1..];
      NewestRest(nodes, next);
      hide NewestFirst;
      if nodes[0].id != id {
        WithoutNewest(nodes[1..], id, next);
        NewestAhead(nodes[0], Without(nodes[1..], id), next);
      }
    }
  }

  lemma {:induction false} TrimNewest<V>(l: Lru<V>, cap: nat)
    requires NewestFirst(l.list)
    ensures NewestFirst(Trim(l, cap).list)
    decreases |l.list.nodes|
  {
    if |l.list.nodes| > cap { TrimNewest(PopBack(l), cap); }
  }

  lemma InsertNewest<V>(l: Lru<V>, key: u64, at: int, value: V, cap: nat)
    requires NewestFirst(l.list)
    ensures NewestFirst(Trim(Push(l, key, at, value), cap).list)
  {
    hide Trim;
    TrimNewest(Push(l, key, at, value), cap);
  }

  lemma DeleteNewest<V>(l: Lru<V>, key: u64)
    requires NewestFirst(l.list) && key in l.items
    ensures NewestFirst(Delete(l, key).list)
  {
    hide Without;
    WithoutNewest(l.list.nodes, l.items[key].elem, l.list.next);
  }

  lemma {:induction false} ExpireNewest<V>(l: Lru<V>, keys: seq<u64>, cutoff: int)
    requires NewestFirst(l.list)
    ensures NewestFirst(Expire(l, keys, cutoff).list)
    decreases |keys|
  {
    hide NewestFirst, Delete;
    if keys != [] {
      if Stale(l, keys[0], cutoff) { DeleteNewest(l, keys[0]); }
      ExpireNewest(if Stale(l, keys[0], cutoff) then Delete(l, keys[0]) else l, keys[1..], cutoff);
    }
  }

  lemma {:induction false} ExpireCovered<V>(l: Lru<V>, keys: seq<u64>, cutoff: int)
    requires Covered(l)
    ensures Covered(Expire(l, keys, cutoff)) && |Expire(l, keys, cutoff).list.nodes| <= |l.list.nodes|
    ensures Agree(l) ==> Agree(Expire(l, keys, cutoff))
    decreases |keys|
  {
    if keys != [] {
      if Stale(l, keys[0], cutoff) {
        DeleteCovered(l, keys[0]);
        ExpireCovered(Delete(l, keys[0]), keys[1..], cutoff);
      } else {
        ExpireCovered(l, keys[1..], cutoff);
      }
    }
  }

  /** A covered map has at most as many entries as its list has elements, and exactly as many
      when the two agree. */
  lemma CoveredSize<V>(l: Lru<V>)
    requires Covered(l)
    ensures |l.items| <= |l.list.nodes|
    ensures Agree(l) ==> |l.items| == |l.list.nodes|
  {
    var keys := NodeKeys(l.list.nodes);
    NodeKeysSize(l.list.nodes);
    forall k | k in l.items.Keys ensures k in keys {
      var n := Node(l.items[k].elem, k);
      assert n in l.list.nodes;
    }
    SubsetSize(l.items.Keys, keys);
    if Agree(l) {
      forall i, j | 0 <= i < j < |l.list.nodes| ensures l.list.nodes[i].key != l.list.nodes[j].key {
        assert l.list.nodes[i] in l.list.nodes && l.list.nodes[j] in l.list.nodes;
      }
      NodeKeysDistinct(l.list.nodes);
      assert keys == l.items.Keys;
    }
  }

  function NodeKeys(nodes: seq<Node>): set<u64> {
    set n | n in nodes :: n.key
  }

  lemma {:induction false} NodeKeysSize(nodes: seq<Node>)
    ensures |NodeKeys(nodes)| <= |nodes|
  {
    if nodes != [] {
      NodeKeysSize(nodes[1..]);
      assert NodeKeys(nodes) == {nodes[0].key} + NodeKeys(nodes[1..]);
    }
  }

  lemma {:induction false} NodeKeysDistinct(nodes: seq<Node>)
    requires forall i, j :: 0 <= i < j < |nodes| ==> nodes[i].key != nodes[j].key
    ensures |NodeKeys(nodes)| == |nodes|
  {
    if nodes != [] {
      NodeKeysDistinct(nodes[1..]);
      assert NodeKeys(nodes) == {nodes[0].key} + NodeKeys(nodes[1..]);
      assert forall n :: n in nodes[1..] ==> n.key != nodes[0].key;
    }
  }

  lemma TwiceCounts<T>(q: seq<T>, i: nat, j: nat)
    requires i < j < |q| && q[i] == q[j]
    ensures multiset(q)[q[i]] >= 2
  {
    assert q == q[..j] + [q[j]] + q[j + 1..];
    assert q[..j][i] == q[i];
    assert multiset(q[..j])[q[i]] >= 1;
  }

  lemma ExpireNothing<V>(l: Lru<V>, cutoff: int)
    ensures Expire(l, [], cutoff) == l && Expired(l, [], cutoff) == []
  {}

  // What survives and what is released

  /** `after` keeps entries of `before` unchanged, and `released` holds values of `before`. */
  ghost predicate Part<V>(before: map<u64, Entry<V>>, after: map<u64, Entry<V>>, released: seq<V>) {
    && (forall k :: k in after ==> k in before && after[k] == before[k])
    && (forall v :: v in released ==> exists k :: k in before && before[k].value == v)
  }

  lemma PartTrans<V>(a: map<u64, Entry<V>>, b: map<u64, Entry<V>>, r: seq<V>, c: map<u64, Entry<V>>, q: seq<V>)
    requires Part(a, b, r) && Part(b, c, q)
    ensures Part(a, c, r + q)
  {
  }

  lemma {:induction false} TrimPart<V>(l: Lru<V>, cap: nat)
    ensures Part(l.items, Trim(l, cap).items, Trimmed(l, cap))
    decreases |l.list.nodes|
  {
    if |l.list.nodes| > cap {
      assert Part(l.items, PopBack(l).items, Popped(l));
      TrimPart(PopBack(l), cap);
      PartTrans(l.items, PopBack(l).items, Popped(l), Trim(l, cap).items, Trimmed(PopBack(l), cap));
    }
  }

  lemma {:induction false} ExpirePart<V>(l: Lru<V>, keys: seq<u64>, cutoff: int)
    ensures Part(l.items, Expire(l, keys, cutoff).items, Expired(l, keys, cutoff))
    ensures forall k :: k in l.items && l.items[k].at >= cutoff ==> k in Expire(l, keys, cutoff).items
    ensures forall k :: k in keys && k in Expire(l, keys, cutoff).items ==> l.items[k].at >= cutoff
    decreases |keys|
  {
    if keys != [] {
      if Stale(l, keys[0], cutoff) {
        var d := Delete(l, keys[0]);
        var v := l.items[keys[0]].value;
        ExpirePart(d, keys[1..], cutoff);
        assert Part(l.items, d.items, [v]);
        PartTrans(l.items, d.items, [v], Expire(d, keys[1..], cutoff).items, Expired(d, keys[1..], cutoff));
      } else {
        ExpirePart(l, keys[1..], cutoff);
      }
      assert keys == [keys[0]] + keys[1..];
    }
  }

  // Values held, as a multiset

  ghost function Values<V>(m: map<u64, Entry<V>>): multiset<V>
    decreases |m|
  {
    if m == map[] then multiset{} else
    var k := AnyKey(m);
    RemoveSize(m, k);
    Values(m - {k}) + multiset{m[k].value}
  }

  ghost function AnyKey<V>(m: map<u64, Entry<V>>): (k: u64)
    requires m != map[]
    ensures k in m
  {
    var k :| k in m; k
  }

  lemma ValuesUnfold<V>(m: map<u64, Entry<V>>) returns (k: u64)
    requires m != map[]
    ensures k in m && Values(m) == Values(m - {k}) + multiset{m[k].value}
  {
    k := AnyKey(m);
  }

  lemma RemoveSwap<V>(m: map<u64, Entry<V>>, j: u64, k: u64)
    ensures m - {j} - {k} == m - {k} - {j}
  {
  }

  lemma UpdateRemove<V>(m: map<u64, Entry<V>>, k: u64, e: Entry<V>)
    ensures m[k := e] - {k} == m - {k}
    ensures k !in m ==> m - {k} == m
  {
  }

  /** The choice of key in Values does not matter. */
  lemma {:induction false} ValuesRemove<V>(m: map<u64, Entry<V>>, key: u64)
    requires key in m
    ensures Values(m) == Values(m - {key}) + multiset{m[key].value}
    decreases |m|
  {
    var k := ValuesUnfold(m);
    if k != key {
      RemoveSize(m, k);
      ValuesRemove(m - {k}, key);
      RemoveSize(m, key);
      ValuesRemove(m - {key}, k);
      RemoveSwap(m, k, key);
    }
  }

  lemma {:induction false} ValuesSize<V>(m: map<u64, Entry<V>>)
    ensures |Values(m)| == |m|
    decreases |m|
  {
    if m != map[] {
      var k :| k in m;
      ValuesRemove(m, k);
      RemoveSize(m, k);
      ValuesSize(m - {k});
    }
  }

  lemma ValuesPush<V>(l: Lru<V>, key: u64, at: int, value: V)
    ensures key !in l.items ==> Values(Push(l, key, at, value).items) == Values(l.items) + multiset{value}
    ensures key in l.items ==>
              Values(Push(l, key, at, value).items) + multiset{l.items[key].value} == Values(l.items) + multiset{value}
  {
    var p := Push(l, key, at, value);
    ValuesRemove(p.items, key);
    UpdateRemove(l.items, key, p.items[key]);
    if key in l.items { ValuesRemove(l.items, key); }
  }

  lemma ValuesPopBack<V>(l: Lru<V>)
    requires l.list.nodes != []
    ensures Values(l.items) == Values(PopBack(l).items) + multiset(Popped(l))
  {
    if BackKey(l) in l.items {
      ValuesRemove(l.items, BackKey(l));
    } else {
      assert PopBack(l).items == l.items;
    }
  }

  lemma {:induction false} ValuesTrim<V>(l: Lru<V>, cap: nat)
    ensures Values(l.items) == Values(Trim(l, cap).items) + multiset(Trimmed(l, cap))
    decreases |l.list.nodes|
  {
    if |l.list.nodes| > cap {
      ValuesPopBack(l);
      ValuesTrim(PopBack(l), cap);
    }
  }

  lemma {:induction false} ValuesExpire<V>(l: Lru<V>, keys: seq<u64>, cutoff: int)
    ensures Values(l.items) == Values(Expire(l, keys, cutoff).items) + multiset(Expired(l, keys, cutoff))
    decreases |keys|
  {
    if keys != [] {
      if Stale(l, keys[0], cutoff) {
        ValuesRemove(l.items, keys[0]);
        ValuesExpire(Delete(l, keys[0]), keys[1..], cutoff);
      } else {
        ValuesExpire(l, keys[1..], cutoff);
      }
    }
  }

  lemma TrimCount<V>(l: Lru<V>, cap: nat)
    ensures |l.items| == |Trim(l, cap).items| + |Trimmed(l, cap)|
  {
    ValuesTrim(l, cap);
    ValuesSize(l.items);
    ValuesSize(Trim(l, cap).items);
  }

  lemma ExpireCount<V>(l: Lru<V>, keys: seq<u64>, cutoff: int)
    ensures |l.items| == |Expire(l, keys, cutoff).items| + |Expired(l, keys, cutoff)|
  {
    ValuesExpire(l, keys, cutoff);
    ValuesSize(l.items);
    ValuesSize(Expire(l, keys, cutoff).items);
  }

  // Expiry does not depend on the order

  /** The nodes whose identity is not in `gone`. */
  function Keep(nodes: seq<Node>, gone: set<nat>): seq<Node> {
    if nodes == [] then [] else
    (if nodes[0].id in gone then [] else [nodes[0]]) + Keep(nodes[1..], gone)
  }

  lemma {:induction false} KeepAll(nodes: seq<Node>, gone: set<nat>)
    requires forall n :: n in nodes ==> n.id !in gone
    ensures Keep(nodes, gone) == nodes
  {
    if nodes != [] { KeepAll(nodes[1..], gone); }
  }

  lemma {:induction false} KeepWithout(nodes: seq<Node>, id: nat, gone: set<nat>)
    requires DistinctNodes(nodes)
    ensures Keep(Without(nodes, id), gone) == Keep(nodes, gone + {id})
  {
    if nodes != [] {
      var rest := nodes[1..];
      KeepWithout(rest, id, gone);
      if nodes[0].id == id {
        assert forall n :: n in rest ==> n.id != id;
        KeepMore(rest, gone, id);
      } else {
        var w := [nodes[0]] + Without(rest, id);
        assert w[1..] == Without(rest, id);
      }
    }
  }

  lemma {:induction false} KeepMore(nodes: seq<Node>, gone: set<nat>, id: nat)
    requires forall n :: n in nodes ==> n.id != id
    ensures Keep(nodes, gone) == Keep(nodes, gone + {id})
  {
    if nodes != [] { KeepMore(nodes[1..], gone, id); }
  }

  /** The elements of the visited entries that are older than `cutoff`. */
  function StaleElems<V>(items: map<u64, Entry<V>>, cutoff: int): set<nat> {
    set k | k in items && items[k].at < cutoff :: items[k].elem
  }

  lemma StaleRest<V>(items: map<u64, Entry<V>>, key: u64, cutoff: int)
    requires key in items && items[key].at < cutoff
    ensures StaleElems(items - {key}, cutoff) + {items[key].elem} == StaleElems(items, cutoff)
  {
    forall e | e in StaleElems(items, cutoff) ensures e in StaleElems(items - {key}, cutoff) + {items[key].elem} {
      var k :| k in items && items[k].at < cutoff && items[k].elem == e;
      if k != key { assert k in items - {key}; }
    }
  }

  function Young<V>(items: map<u64, Entry<V>>, cutoff: int): map<u64, Entry<V>> {
    map k | k in items && items[k].at >= cutoff :: items[k]
  }

  /** A sweep over all keys, in whatever order, keeps exactly the entries that are not old and their elements. */
  lemma {:induction false} ExpireIs<V>(l: Lru<V>, keys: seq<u64>, cutoff: int)
    requires DistinctNodes(l.list.nodes) && forall k :: k in l.items && l.items[k].at < cutoff ==> k in keys
    ensures Expire(l, keys, cutoff).items == Young(l.items, cutoff)
    ensures Expire(l, keys, cutoff).list == l.list.(nodes := Keep(l.list.nodes, StaleElems(l.items, cutoff)))
    decreases |keys|
  {
    if keys == [] {
      assert StaleElems(l.items, cutoff) == {};
      KeepAll(l.list.nodes, {});
      assert Young(l.items, cutoff) == l.items;
    } else {
      assert keys == [keys[0]] + keys[1..];
      if Stale(l, keys[0], cutoff) {
        var d := Delete(l, keys[0]);
        WithoutMembers(l.list.nodes, l.items[keys[0]].elem);
        ExpireIs(d, keys[1..], cutoff);
        StaleRest(l.items, keys[0], cutoff);
        KeepWithout(l.list.nodes, l.items[keys[0]].elem, StaleElems(d.items, cutoff));
        assert Young(d.items, cutoff) == Young(l.items, cutoff);
      } else {
        ExpireIs(l, keys[1..], cutoff);
      }
    }
  }

  lemma {:induction false} KeepTwice(nodes: seq<Node>, a: set<nat>, b: set<nat>)
    ensures Keep(Keep(nodes, a), b) == Keep(nodes, a + b)
  {
    if nodes != [] {
      var rest := nodes[1..];
      KeepTwice(rest, a, b);
      assert [] + Keep(rest, a) == Keep(rest, a) && [] + Keep(rest, a + b) == Keep(rest, a + b);
      if nodes[0].id !in a {
        var kept := [nodes[0]] + Keep(rest, a);
        assert Keep(nodes, a) == kept && kept[1..] == Keep(rest, a);
      }
    }
  }

  lemma StaleTwice<V>(items: map<u64, Entry<V>>, a: int, b: int)
    requires a <= b
    ensures StaleElems(items, a) + StaleElems(Young(items, a), b) == StaleElems(items, b)
    ensures StaleElems(items, b) + StaleElems(Young(items, b), a) == StaleElems(items, b)
    ensures Young(Young(items, a), b) == Young(items, b) && Young(Young(items, b), a) == Young(items, b)
  {
    var y := Young(items, a);
    forall e | e in StaleElems(items, b) ensures e in StaleElems(items, a) + StaleElems(y, b) {
      var k :| k in items && items[k].at < b && items[k].elem == e;
      if items[k].at >= a { assert k in y && y[k] == items[k]; }
    }
  }

  lemma {:induction false} KeepDistinct(nodes: seq<Node>, gone: set<nat>)
    requires DistinctNodes(nodes)
    ensures DistinctNodes(Keep(nodes, gone)) && forall n :: n in Keep(nodes, gone) ==> n in nodes
  {
    if nodes != [] {
      KeepDistinct(nodes[1..], gone);
      assert forall n :: n in nodes[1..] ==> n in nodes && n.id != nodes[0].id;
    }
  }

  /** Two sweeps over all keys do the same in either order: together they are the later of the two. */
  lemma ExpireCommutes<V>(l: Lru<V>, k1: seq<u64>, c1: int, k2: seq<u64>, c2: int, j2: seq<u64>, j1: seq<u64>)
    requires DistinctNodes(l.list.nodes) && Enumerates(k1, l.items) && Enumerates(j2, l.items)
    requires Enumerates(k2, Expire(l, k1, c1).items) && Enumerates(j1, Expire(l, j2, c2).items)
    ensures Expire(Expire(l, k1, c1), k2, c2) == Expire(Expire(l, j2, c2), j1, c1)
  {
    hide Expire, Keep, Young, StaleElems;
    ExpireBoth(l, k1, c1, k2, c2);
    ExpireBoth(l, j2, c2, j1, c1);
  }

  lemma ExpireBoth<V>(l: Lru<V>, k1: seq<u64>, c1: int, k2: seq<u64>, c2: int)
    requires DistinctNodes(l.list.nodes) && Enumerates(k1, l.items) && Enumerates(k2, Expire(l, k1, c1).items)
    ensures var c, r := if c1 <= c2 then c2 else c1, Expire(Expire(l, k1, c1), k2, c2);
            r.items == Young(l.items, c) && r.list == l.list.(nodes := Keep(l.list.nodes, StaleElems(l.items, c)))
  {
    hide Expire, Keep, Young, StaleElems;
    ExpireIs(l, k1, c1);
    KeepDistinct(l.list.nodes, StaleElems(l.items, c1));
    var e := Expire(l, k1, c1);
    ExpireIs(e, k2, c2);
    KeepTwice(l.list.nodes, StaleElems(l.items, c1), StaleElems(e.items, c2));
    if c1 <= c2 { StaleTwice(l.items, c1, c2); } else { StaleTwice(l.items, c2, c1); }
  }
}
