/** The duplicate-cookie detector: a ring of the last 4096 accepted cookies and a set beside it. */
module CookieRing {
  import opened Types
  import opened CollectorModel

  const N: nat := RECENT_COOKIE_RING_SIZE

  /** The ring holds the last N accepted cookies, zero where it was never written. */
  ghost predicate Slots(ring: seq<u64>, head: nat, accepted: seq<u64>) {
    && |ring| == N && head == |accepted| % N
    && (forall j :: 0 <= j < |accepted| && |accepted| - N <= j ==> ring[j % N] == accepted[j])
    && (forall i :: |accepted| <= i < N ==> ring[i] == 0)
  }

  /** Accepted cookies are nonzero, and the last N of them are all different. */
  ghost predicate Apart(accepted: seq<u64>) {
    && (forall j :: 0 <= j < |accepted| ==> accepted[j] != 0)
    && (forall i, j :: 0 <= i < j < |accepted| && |accepted| - N <= i ==> accepted[i] != accepted[j])
  }

  predicate AmongLast(accepted: seq<u64>, c: u64) {
    exists j :: 0 <= j < |accepted| && |accepted| - N <= j && accepted[j] == c
  }

  ghost predicate RingOk(ring: seq<u64>, head: nat, seen: set<u64>, accepted: seq<u64>) {
    Slots(ring, head, accepted) && Apart(accepted) && forall c :: c in seen <==> AmongLast(accepted, c)
  }

  lemma WindowIsLast(accepted: seq<u64>, c: u64)
    ensures AmongLast(accepted, c) <==> c in LastCookies(accepted)
  {
    var w := LastCookies(accepted);
    var d := |accepted| - |w|;
    if AmongLast(accepted, c) {
      var j :| 0 <= j < |accepted| && |accepted| - N <= j && accepted[j] == c;
      assert w[j - d] == c;
    }
    if c in w {
      var i :| 0 <= i < |w| && w[i] == c;
      assert accepted[i + d] == c;
    }
  }

  /** The set answers whether a cookie is among the last N accepted ones. */
  lemma RingSet(ring: seq<u64>, head: nat, seen: set<u64>, accepted: seq<u64>, cookie: u64)
    requires RingOk(ring, head, seen, accepted)
    ensures cookie in seen <==> cookie in LastCookies(accepted)
  {
    hide Slots, Apart, AmongLast, LastCookies;
    WindowIsLast(accepted, cookie);
  }

  lemma RingShape(ring: seq<u64>, head: nat, seen: set<u64>, accepted: seq<u64>)
    requires RingOk(ring, head, seen, accepted)
    ensures |ring| == N && head < N
  {
    hide Apart, AmongLast;
  }

  /** The window loses its oldest cookie, if it is full, and gains the new one. */
  lemma WindowPush(accepted: seq<u64>, cookie: u64, c: u64)
    requires Apart(accepted)
    ensures AmongLast(accepted + [cookie], c) <==>
            c == cookie || (AmongLast(accepted, c) && !(|accepted| >= N && c == accepted[|accepted| - N]))
  {
    var n, a := |accepted|, accepted + [cookie];
    if c == cookie { assert a[n] == c; }
    if AmongLast(a, c) && c != cookie {
      var j :| 0 <= j < |a| && |a| - N <= j && a[j] == c;
      assert accepted[j] == c;
    }
    if AmongLast(accepted, c) {
      var j :| 0 <= j < n && n - N <= j && accepted[j] == c;
      assert a[j] == c;
    }
  }

  /** What the slot at the head holds: the oldest cookie of a full window, or nothing yet. */
  lemma HeadSlot(ring: seq<u64>, head: nat, accepted: seq<u64>)
    requires Slots(ring, head, accepted)
    ensures head < |ring| && ring[head] == if |accepted| >= N then accepted[|accepted| - N] else 0
  {
    if |accepted| >= N { assert (|accepted| - N) % N == head; }
  }

  /** Within one turn of the ring no other position falls on the head. */
  lemma HeadApart(n: nat, j: nat)
    requires j < n < j + N
    ensures j % N != n % N
  {}

  lemma NextHead(n: nat)
    ensures (n + 1) % N == (n % N + 1) % N
  {}

  lemma SlotsPush(ring: seq<u64>, head: nat, accepted: seq<u64>, cookie: u64)
    requires Slots(ring, head, accepted)
    ensures Slots(ring[head := cookie], (head + 1) % N, accepted + [cookie])
  {
    var n, a, r := |accepted|, accepted + [cookie], ring[head := cookie];
    NextHead(n);
    forall j | 0 <= j < |a| && |a| - N <= j ensures r[j % N] == a[j] {
      if j < n { HeadApart(n, j); }
    }
  }

  lemma ApartPush(accepted: seq<u64>, cookie: u64)
    requires Apart(accepted) && cookie != 0 && !AmongLast(accepted, cookie)
    ensures Apart(accepted + [cookie])
  {
    assert forall j :: 0 <= j < |accepted| && |accepted| - N <= j ==> accepted[j] != cookie;
  }

  /** Writing a new cookie over the oldest one keeps ring and set in step. */
  lemma RingPush(ring: seq<u64>, head: nat, seen: set<u64>, accepted: seq<u64>, cookie: u64)
    requires RingOk(ring, head, seen, accepted) && cookie != 0 && cookie !in seen
    ensures RingOk(ring[head := cookie], (head + 1) % N,
                   (if ring[head] != 0 then seen - {ring[head]} else seen) + {cookie}, accepted + [cookie])
  {
    HeadSlot(ring, head, accepted);
    assert |accepted| >= N ==> accepted[|accepted| - N] != 0;
    hide AmongLast, Slots, Apart;
    var seen' := (if ring[head] != 0 then seen - {ring[head]} else seen) + {cookie};
    SlotsPush(ring, head, accepted, cookie);
    ApartPush(accepted, cookie);
    forall c ensures c in seen' <==> AmongLast(accepted + [cookie], c) { WindowPush(accepted, cookie, c); }
  }
}
