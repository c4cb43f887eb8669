/** The collector's handlers as they update its fields in place, proved to do what
    CollectorModel says. */
module EventCollector {
  import opened Types
  import opened KeyedList
  import opened CollectorModel
  import opened CookieRing
  import opened CollectorLists
  import opened CollectorCustody
  import opened CollectorHolding
  import opened CollectorProvenance
  import opened CollectorLoss
  import opened Reassembly

  // Loops over a map and its list

  /** evictLRUIfFullCollect: pops from the back while the list is longer than `cap`. */
  method EvictIfFull<V>(items0: map<u64, Entry<V>>, list0: List, cap: nat)
    returns (items: map<u64, Entry<V>>, list: List, out: seq<V>)
    ensures Lru(items, list) == Trim(Lru(items0, list0), cap)
    ensures out == Trimmed(Lru(items0, list0), cap)
  {
    items, list, out := items0, list0, [];
    while |list.nodes| > cap
      invariant Trim(Lru(items, list), cap) == Trim(Lru(items0, list0), cap)
      invariant out + Trimmed(Lru(items, list), cap) == Trimmed(Lru(items0, list0), cap)
      decreases |list.nodes|
    {
      ghost var l := Lru(items, list);
      var back := list.nodes[|list.nodes| - 1];
      list := list.(nodes := list.nodes[..|list.nodes| - 1]);
      if back.key in items { out := out + [items[back.key].value]; }
      items := items - {back.key};
      assert Lru(items, list) == PopBack(l);
    }
  }

  lemma {:induction false} ExpireLast<V>(l: Lru<V>, keys: seq<u64>, key: u64, cutoff: int)
    ensures var e := Expire(l, keys, cutoff);
            && Expire(l, keys + [key], cutoff) == (if Stale(e, key, cutoff) then Delete(e, key) else e)
            && Expired(l, keys + [key], cutoff) ==
               Expired(l, keys, cutoff) + (if Stale(e, key, cutoff) then [e.items[key].value] else [])
    decreases |keys|
  {
    if keys == [] {
      assert [key][1..] == [];
    } else {
      assert (keys + [key])[1..] == keys[1..] + [key];
      ExpireLast(if Stale(l, keys[0], cutoff) then Delete(l, keys[0]) else l, keys[1..], key, cutoff);
    }
  }

  /** Ranging over a map and deleting what is older than `cutoff`; the order is whatever the range takes. */
  method DeleteOlder<V>(items0: map<u64, Entry<V>>, list0: List, cutoff: int)
    returns (items: map<u64, Entry<V>>, list: List, out: seq<V>, ghost order: seq<u64>)
    ensures Enumerates(order, items0)
    ensures items == map k | k in items0 && items0[k].at >= cutoff :: items0[k]
    ensures Lru(items, list) == Expire(Lru(items0, list0), order, cutoff)
    ensures out == Expired(Lru(items0, list0), order, cutoff)
  {
    hide Expire, Expired;
    items, list, out, order := items0, list0, [], [];
    ExpireNothing(Lru(items0, list0), cutoff);
    var todo := items0.Keys;
    while todo != {}
      invariant todo <= items0.Keys && todo <= items.Keys
      invariant items == map k | k in items0 && (k in todo || items0[k].at >= cutoff) :: items0[k]
      invariant forall k :: k in order <==> k in items0.Keys - todo
      invariant forall i, j :: 0 <= i < j < |order| ==> order[i] != order[j]
      invariant Lru(items, list) == Expire(Lru(items0, list0), order, cutoff)
      invariant out == Expired(Lru(items0, list0), order, cutoff)
      decreases |todo|
    {
      var k :| k in todo;
      ExpireLast(Lru(items0, list0), order, k, cutoff);
      var e := items[k];
      if e.at < cutoff {
        list := Remove(list, e.elem);
        items := items - {k};
        out := out + [e.value];
      }
      assert forall x :: x in order + [k] <==> x in order || x == k;
      todo := todo - {k};
      order := order + [k];
    }
  }

  // Loops over chunks

  method AllReceived(chunks: seq<Option<ChunkData>>) returns (complete: bool)
    ensures complete == Complete(chunks)
  {
    complete := true;
    var i := 0;
    while i < |chunks|
      invariant 0 <= i <= |chunks| && complete
      invariant forall j :: 0 <= j < i ==> chunks[j].Some?
    {
      if chunks[i].None? { return false; }
      i := i + 1;
    }
  }

  method MergeChunks(chunks: seq<Option<ChunkData>>) returns (data: Bytes)
    requires Complete(chunks)
    ensures data == Merge(chunks)
  {
    data := [];
    var i := 0;
    while i < |chunks|
      invariant 0 <= i <= |chunks| && data == Merge(chunks[..i])
    {
      data := data + chunks[i].value;
      assert chunks[..i + 1][..i] == chunks[..i];
      i := i + 1;
    }
    assert chunks[..i] == chunks;
  }

  method DropStaleBuffers(buffers: map<u64, TxBuffer>, cutoff: int) returns (kept: map<u64, TxBuffer>)
    ensures kept == FreshBuffers(buffers, cutoff)
  {
    kept := buffers;
    var todo := buffers.Keys;
    while todo != {}
      invariant todo <= buffers.Keys
      invariant kept == map k | k in buffers && (k in todo || buffers[k].firstSeen >= cutoff) :: buffers[k]
      decreases |todo|
    {
      var id :| id in todo;
      if kept[id].firstSeen < cutoff { kept := kept - {id}; }
      todo := todo - {id};
    }
  }

  class Collector {
    var transactionBuffers: map<u64, TxBuffer>
    var eventCounter: u32
    var pendingCookieByTxid: map<u64, Entry<u64>>
    var pendingCookieLRU: List
    var pendingMain: map<u64, Entry<MainEvent>>
    var pendingMainLRU: List
    var pendingMainByTxid: map<u64, Entry<MainEvent>>
    var pendingMainTxidLRU: List
    var pendingOneway: map<u64, Entry<Sideband>>
    var pendingOnewayLRU: List
    var recentOneway: map<u64, Entry<()>>
    var recentOnewayLRU: List
    var recentCookieSet: set<u64>
    const recentCookieRing: array<u64>
    var recentCookieHead: nat
    var failures: Failures
    var emitted: seq<MainEvent>      // the calls of onEvent
    ghost var accepted: seq<u64>
    ghost var hist: History
    ghost var inputs: seq<Input>     // the records and sweeps handled

    ghost predicate RingValid()
      reads this`recentCookieHead, this`recentCookieSet, this`accepted, recentCookieRing
    {
      RingOk(recentCookieRing[..], recentCookieHead, recentCookieSet, accepted)
    }

    /** Between handlers the collector is where the model's run over its inputs is, and every loop over a map
        has visited all its keys. */
    ghost predicate Valid()
      reads this, recentCookieRing
    {
      RingValid() && View() == Run(Init(), inputs) && RangedRun(inputs)
    }

    ghost function View(): State
      reads this`transactionBuffers, this`eventCounter, this`pendingCookieByTxid, this`pendingCookieLRU
      reads this`pendingMain, this`pendingMainLRU, this`pendingMainByTxid, this`pendingMainTxidLRU
      reads this`pendingOneway, this`pendingOnewayLRU, this`recentOneway, this`recentOnewayLRU
      reads this`accepted, this`failures, this`emitted, this`hist
    {
      State(transactionBuffers, eventCounter, Lru(pendingCookieByTxid, pendingCookieLRU),
            Lru(pendingMain, pendingMainLRU), Lru(pendingMainByTxid, pendingMainTxidLRU),
            Lru(pendingOneway, pendingOnewayLRU), Lru(recentOneway, recentOnewayLRU),
            accepted, failures, emitted, hist)
    }

    constructor ()
      ensures Valid() && fresh(recentCookieRing) && inputs == []
    {
      transactionBuffers, eventCounter := map[], 0;
      pendingCookieByTxid, pendingCookieLRU := map[], EmptyList();
      pendingMain, pendingMainLRU := map[], EmptyList();
      pendingMainByTxid, pendingMainTxidLRU := map[], EmptyList();
      pendingOneway, pendingOnewayLRU := map[], EmptyList();
      recentOneway, recentOnewayLRU := map[], EmptyList();
      recentCookieSet, recentCookieHead := {}, 0;
      recentCookieRing := new u64[RECENT_COOKIE_RING_SIZE](_ => 0);
      failures, emitted := Failures(0, 0, 0, 0), [];
      accepted, hist, inputs := [], History([], 0, [], 0, 0, 0, 0, Seen({}, {}, {})), [];
    }

    /** What holds of the collector between handlers, whatever it has been fed. */
    lemma Promises()
      requires Valid()
      ensures Lists(View()) && Custody(View()) && Balanced(View()) && Sound(View())
      ensures hist.seen == SeenIn(inputs)
      ensures forall m :: m in emitted ==> Built(SeenIn(inputs), m) && Sourced(SeenIn(inputs), m)
      ensures hist.lost == [] <==> Careful(inputs)
    {
      hide Run, RangedRun, RingOk, Lists, Custody, Balanced, Sound, Built, Sourced, Careful;
      RunLists(inputs);
      RunKept(inputs);
      RunSound(inputs);
      RunSeen(inputs);
      LostIffCareful(inputs);
      forall m | m in emitted ensures Built(SeenIn(inputs), m) && Sourced(SeenIn(inputs), m) {
        RunProvenance(inputs, m);
      }
    }

    /** Once a step of the model has been made, the input that made it is added. */
    lemma Made(i: Input, was: State)
      requires was == Run(Init(), inputs) && RangedRun(inputs) && Ranged(was, i) && View() == Step(was, i)
      ensures View() == Run(Init(), inputs + [i]) && RangedRun(inputs + [i])
    {
      hide Run, RangedRun, Ranged, Step;
      RunLast(Init(), inputs, i);
      RangedLast(inputs, i);
    }

    method CheckCookieDuplicate(cookie: u64)
      requires RingValid() && cookie != 0
      modifies this`recentCookieSet, this`recentCookieHead, this`failures, this`accepted, recentCookieRing
      ensures RingValid() && View() == CheckDuplicate(old(View()), cookie)
    {
      hide RingOk;
      ghost var ring := recentCookieRing[..];
      RingSet(ring, recentCookieHead, recentCookieSet, accepted, cookie);
      if cookie in recentCookieSet {
        failures := failures.(cookieViolation := failures.cookieViolation + 1);
        return;
      }
      AcceptCookie(cookie);
    }

    /** A cookie not seen lately takes the place of the oldest one. */
    method AcceptCookie(cookie: u64)
      requires RingValid() && cookie != 0 && cookie !in recentCookieSet
      modifies this`recentCookieSet, this`recentCookieHead, this`accepted, recentCookieRing
      ensures RingValid() && View() == old(View()).(accepted := old(accepted) + [cookie])
    {
      hide RingOk;
      ghost var ring := recentCookieRing[..];
      RingShape(ring, recentCookieHead, recentCookieSet, accepted);
      RingPush(ring, recentCookieHead, recentCookieSet, accepted, cookie);
      var oldest := recentCookieRing[recentCookieHead];
      if oldest != 0 { recentCookieSet := recentCookieSet - {oldest}; }
      recentCookieRing[recentCookieHead] := cookie;
      assert recentCookieRing[..] == ring[recentCookieHead := cookie];
      recentCookieHead := (recentCookieHead + 1) % recentCookieRing.Length;
      recentCookieSet := recentCookieSet + {cookie};
      accepted := accepted + [cookie];
    }

    method RecordRecentOnewayEmit(cookie: u64, now: int)
      modifies this`recentOneway, this`recentOnewayLRU
      ensures View() == RecordRecent(old(View()), cookie, now)
    {
      hide Trim;
      if cookie in recentOneway {
        var e := recentOneway[cookie];
        recentOnewayLRU := MoveToFront(recentOnewayLRU, Node(e.elem, cookie));
        recentOneway := recentOneway[cookie := e.(at := now, value := ())];
        return;
      }
      var id := recentOnewayLRU.next;
      recentOnewayLRU := PushFront(recentOnewayLRU, cookie);
      recentOneway := recentOneway[cookie := Entry(now, (), id)];
      var items, list, _ := EvictIfFull(recentOneway, recentOnewayLRU, RECENT_ONEWAY_CAPACITY);
      recentOneway, recentOnewayLRU := items, list;
    }

    method EmitEarly(out: seq<MainEvent>)
      modifies this`failures, this`emitted
      ensures View() == old(View()).(failures := AddEarly(old(View()).failures, |out|), emitted := old(emitted) + out)
    {
      failures := AddEarly(failures, |out|);
      emitted := emitted + out;
    }

    method EvictPendingMain()
      modifies this`pendingMain, this`pendingMainLRU, this`failures, this`emitted
      ensures View() == TrimMain(old(View()))
    {
      hide Trim, Trimmed;
      var items, list, out := EvictIfFull(pendingMain, pendingMainLRU, PENDING_MAIN_CAPACITY);
      pendingMain, pendingMainLRU := items, list;
      EmitEarly(out);
    }

    method ReleaseUnderTxid(transactionId: u64)
      requires transactionId in pendingMainByTxid
      modifies this`pendingMainByTxid, this`pendingMainTxidLRU, this`failures, this`emitted
      ensures View() == ReleaseByTxid(old(View()), transactionId)
    {
      hide Without;
      var stale := pendingMainByTxid[transactionId];
      pendingMainTxidLRU := Remove(pendingMainTxidLRU, stale.elem);
      pendingMainByTxid := pendingMainByTxid - {transactionId};
      failures := AddEarly(failures, 1);
      emitted := emitted + [stale.value];
    }

    method ReleaseUnderCookie(cookie: u64)
      requires cookie in pendingMain
      modifies this`pendingMain, this`pendingMainLRU, this`failures, this`emitted
      ensures View() == ReleaseMain(old(View()), cookie)
    {
      hide Without;
      var stale := pendingMain[cookie];
      pendingMainLRU := Remove(pendingMainLRU, stale.elem);
      pendingMain := pendingMain - {cookie};
      failures := AddEarly(failures, 1);
      emitted := emitted + [stale.value];
    }

    method EvictPendingByTxid()
      modifies this`pendingMainByTxid, this`pendingMainTxidLRU, this`failures, this`emitted
      ensures View() == TrimByTxid(old(View()))
    {
      hide Trim, Trimmed;
      var items, list, out := EvictIfFull(pendingMainByTxid, pendingMainTxidLRU, PENDING_MAIN_CAPACITY);
      pendingMainByTxid, pendingMainTxidLRU := items, list;
      EmitEarly(out);
    }

    method ParkUnderTxid(ev: MainEvent, transactionId: u64, now: int)
      modifies this`pendingMainByTxid, this`pendingMainTxidLRU, this`failures, this`emitted, this`hist
      ensures View() == ParkByTxid(old(View()), ev, transactionId, now)
    {
      hide ReleaseByTxid, TrimByTxid;
      if transactionId in pendingMainByTxid { ReleaseUnderTxid(transactionId); }
      var id := pendingMainTxidLRU.next;
      pendingMainTxidLRU := PushFront(pendingMainTxidLRU, transactionId);
      pendingMainByTxid := pendingMainByTxid[transactionId := Entry(now, ev, id)];
      hist := NoteParked(hist, ev);
      EvictPendingByTxid();
    }

    method ParkUnderCookie(ev: MainEvent, cookie: u64, now: int)
      modifies this`pendingMain, this`pendingMainLRU, this`failures, this`emitted, this`hist
      ensures View() == ParkByCookie(old(View()), ev, cookie, now)
    {
      hide Trim, Trimmed;
      hist := NoteParked(hist, ev).(
        lost := hist.lost + if cookie in pendingMain then [pendingMain[cookie].value] else []);
      var id := pendingMainLRU.next;
      pendingMainLRU := PushFront(pendingMainLRU, cookie);
      pendingMain := pendingMain[cookie := Entry(now, ev, id)];
      EvictPendingMain();
    }

    /** The sideband of a one-way main that came before it. */
    method TakeEarlySideband(cookie: u64) returns (sb: Sideband)
      requires cookie in pendingOneway
      modifies this`pendingOneway, this`pendingOnewayLRU, this`hist
      ensures sb == old(pendingOneway)[cookie].value
      ensures var was := old(View());
              View() == was.(oneway := Delete(was.oneway, cookie),
                             hist := was.hist.(mergedOneway := was.hist.mergedOneway + 1))
    {
      hide Without;
      var pe := pendingOneway[cookie];
      pendingOnewayLRU := Remove(pendingOnewayLRU, pe.elem);
      pendingOneway := pendingOneway - {cookie};
      hist := hist.(mergedOneway := hist.mergedOneway + 1);
      sb := pe.value;
    }

    method EmitOneway(ev: MainEvent, cookie: u64, now: int)
      modifies this`pendingOneway, this`pendingOnewayLRU, this`recentOneway, this`recentOnewayLRU
      modifies this`emitted, this`hist
      ensures View() == RouteOneway(old(View()), ev, cookie, now)
    {
      hide Delete, RecordRecent, EmitNow;
      var m := ev;
      if cookie in pendingOneway {
        var sb := TakeEarlySideband(cookie);
        m := Merged(ev, sb);
      }
      RecordRecentOnewayEmit(cookie, now);
      EmitAtOnce(m);
    }

    method EmitAtOnce(ev: MainEvent)
      modifies this`emitted, this`hist
      ensures View() == EmitNow(old(View()), ev)
    {
      emitted := emitted + [ev];
      hist := NoteCompleted(hist, ev);
    }

    method RouteMainEvent(ev: MainEvent, cookie: u64, transactionId: u64, now: int)
      requires RingValid()
      modifies this, recentCookieRing
      ensures RingValid() && View() == RouteMain(old(View()), ev, cookie, transactionId, now)
      ensures inputs == old(inputs)
    {
      hide ParkByTxid, ParkByCookie, RouteOneway, RingValid, View, CheckDuplicate, EmitNow;
      if ev.event.isReply != 0 {
        EmitAtOnce(ev);
        return;
      }
      var isOneway := IsOneway(ev.event.flags);
      if cookie == 0 {
        if isOneway || transactionId == 0 {
          EmitAtOnce(ev);
        } else {
          ParkUnderTxid(ev, transactionId, now);
        }
        return;
      }
      CheckCookieDuplicate(cookie);
      if isOneway {
        EmitOneway(ev, cookie, now);
      } else {
        ParkUnderCookie(ev, cookie, now);
      }
    }

    method MergePendingMain(sb: Sideband)
      requires sb.cookie in pendingMain
      modifies this`pendingMain, this`pendingMainLRU, this`emitted, this`hist
      ensures View() == MergeMain(old(View()), sb)
    {
      hide Without;
      var pm := pendingMain[sb.cookie];
      pendingMainLRU := Remove(pendingMainLRU, pm.elem);
      pendingMain := pendingMain - {sb.cookie};
      emitted := emitted + [Merged(pm.value, sb)];
      hist := hist.(mergedSync := hist.mergedSync + 1);
    }

    method DropDuplicateSideband(cookie: u64)
      requires cookie in pendingOneway
      modifies this`pendingOneway, this`pendingOnewayLRU, this`failures, this`hist
      ensures View() == DropDuplicate(old(View()), cookie)
    {
      hide Without;
      var e := pendingOneway[cookie];
      pendingOnewayLRU := Remove(pendingOnewayLRU, e.elem);
      pendingOneway := pendingOneway - {cookie};
      failures := AddOrphans(failures, 1);
      hist := hist.(duplicates := hist.duplicates + 1);
    }

    method StashSidebandRecord(sb: Sideband, now: int)
      modifies this`pendingOneway, this`pendingOnewayLRU, this`failures
      ensures View() == StashSideband(old(View()), sb, now)
    {
      hide Trim, Trimmed;
      var id := pendingOnewayLRU.next;
      pendingOnewayLRU := PushFront(pendingOnewayLRU, sb.cookie);
      pendingOneway := pendingOneway[sb.cookie := Entry(now, sb, id)];
      var items, list, out := EvictIfFull(pendingOneway, pendingOnewayLRU, PENDING_ONEWAY_CAPACITY);
      pendingOneway, pendingOnewayLRU := items, list;
      failures := AddOrphans(failures, |out|);
    }

    method HandleSidebandRecord(sb: Sideband, now: i64)
      modifies this`pendingMain, this`pendingMainLRU, this`pendingOneway, this`pendingOnewayLRU
      modifies this`failures, this`emitted, this`hist
      ensures View() == HandleSideband(old(View()), sb, now)
    {
      hide MergeMain, DropDuplicate, StashSideband;
      hist := hist.(handled := hist.handled + 1, seen := hist.seen.(sidebands := hist.seen.sidebands + {sb}));
      if sb.cookie in pendingMain {
        MergePendingMain(sb);
      } else if sb.cookie in pendingOneway {
        DropDuplicateSideband(sb.cookie);
      } else if sb.cookie in recentOneway {
        failures := failures.(onewayLate := failures.onewayLate + 1);
      } else {
        StashSidebandRecord(sb, now);
      }
    }

    method EvictStalePendingCookies(now: int) returns (ghost order: seq<u64>)
      modifies this`pendingCookieByTxid, this`pendingCookieLRU
      ensures Enumerates(order, old(View()).cookies.items)
      ensures View() == ExpireCookies(old(View()), now, order)
    {
      hide Expire, Expired;
      var items, list, _, o := DeleteOlder(pendingCookieByTxid, pendingCookieLRU, now - PENDING_COOKIE_TTL);
      pendingCookieByTxid, pendingCookieLRU, order := items, list, o;
    }

    method RemoveParked(transactionId: u64) returns (pe: Entry<MainEvent>)
      requires transactionId in pendingMainByTxid
      modifies this`pendingMainByTxid, this`pendingMainTxidLRU
      ensures pe == old(pendingMainByTxid)[transactionId]
      ensures View() == old(View()).(byTxid := Delete(old(View()).byTxid, transactionId))
    {
      pe := pendingMainByTxid[transactionId];
      pendingMainTxidLRU := Remove(pendingMainTxidLRU, pe.elem);
      pendingMainByTxid := pendingMainByTxid - {transactionId};
    }

    method PushPending(cookie: u64, at: int, value: MainEvent)
      modifies this`pendingMain, this`pendingMainLRU
      ensures View() == old(View()).(main := Push(old(View()).main, cookie, at, value))
    {
      var id := pendingMainLRU.next;
      pendingMainLRU := PushFront(pendingMainLRU, cookie);
      pendingMain := pendingMain[cookie := Entry(at, value, id)];
    }

    method ActivateByTxid(transactionId: u64, cookie: u64)
      requires transactionId in pendingMainByTxid
      modifies this`pendingMainByTxid, this`pendingMainTxidLRU, this`pendingMain, this`pendingMainLRU
      modifies this`failures, this`emitted
      ensures View() == Activate(old(View()), transactionId, cookie)
    {
      hide TrimMain, Delete, Push;
      var pe := RemoveParked(transactionId);
      if cookie in pendingMain { ReleaseUnderCookie(cookie); }
      PushPending(cookie, pe.at, pe.value);
      EvictPendingMain();
    }

    method StashCookieRecord(r: CookieRecord, now: int)
      modifies this`pendingCookieByTxid, this`pendingCookieLRU
      ensures View() == StashCookie(old(View()), r, now)
    {
      hide Trim, Trimmed, Without;
      if r.txid in pendingCookieByTxid {
        var e := pendingCookieByTxid[r.txid];
        pendingCookieLRU := MoveToFront(pendingCookieLRU, Node(e.elem, r.txid));
        pendingCookieByTxid := pendingCookieByTxid[r.txid := e.(at := now, value := r.cookie)];
      } else {
        var id := pendingCookieLRU.next;
        pendingCookieLRU := PushFront(pendingCookieLRU, r.txid);
        pendingCookieByTxid := pendingCookieByTxid[r.txid := Entry(now, r.cookie, id)];
      }
      var items, list, _ := EvictIfFull(pendingCookieByTxid, pendingCookieLRU, PENDING_COOKIE_CAPACITY);
      pendingCookieByTxid, pendingCookieLRU := items, list;
    }

    method TakeCookieRecord(r: CookieRecord, now: i64, later: i64) returns (ghost order: seq<u64>)
      modifies this`transactionBuffers, this`pendingMainByTxid, this`pendingMainTxidLRU
      modifies this`pendingMain, this`pendingMainLRU, this`failures, this`emitted, this`hist
      modifies this`pendingCookieByTxid, this`pendingCookieLRU
      ensures View() == HandleCookie(old(View()), r, now, later, order)
      ensures Ranged(old(View()), CookieIn(r, now, later, order))
    {
      hide Activate, StashCookie, ExpireCookies, Enumerates, NoteCookie;
      order := [];
      NoteCookieRecord(r);
      if r.txid == 0 || r.cookie == 0 { return; }
      if r.txid in transactionBuffers && transactionBuffers[r.txid].meta.cookie == 0 {
        var b := transactionBuffers[r.txid];
        transactionBuffers := transactionBuffers[r.txid := b.(meta := b.meta.(cookie := r.cookie))];
        return;
      }
      if r.txid in pendingMainByTxid {
        ActivateByTxid(r.txid, r.cookie);
        return;
      }
      StashCookieRecord(r, now);
      order := EvictStalePendingCookies(later);
    }

    method NoteCookieRecord(r: CookieRecord)
      modifies this`hist
      ensures View() == NoteCookie(old(View()), r)
      ensures View() == old(View()).(hist := View().hist)
    {
      hist := hist.(seen := hist.seen.(cookieRecords := hist.seen.cookieRecords + {r}));
    }

    /** handleCookieSideband. */
    method HandleCookieSideband(r: CookieRecord, now: i64, later: i64) returns (ghost order: seq<u64>)
      requires Valid()
      modifies this
      ensures Valid() && inputs == old(inputs) + [CookieIn(r, now, later, order)]
    {
      hide RingValid, View, Run, RangedRun, HandleCookie, Ranged;
      ghost var was := View();
      order := TakeCookieRecord(r, now, later);
      Made(CookieIn(r, now, later, order), was);
      inputs := inputs + [CookieIn(r, now, later, order)];
    }

    method Cleanup(now: int, later: int) returns (ghost order: seq<u64>)
      modifies this`eventCounter, this`transactionBuffers, this`pendingCookieByTxid, this`pendingCookieLRU
      ensures View() == MaybeCleanup(old(View()), now, later, order)
      ensures CleansUp(old(View())) ==> Enumerates(order, old(View()).cookies.items)
    {
      hide ExpireCookies, Enumerates;
      order := [];
      eventCounter := (eventCounter + 1) % 0x1_0000_0000;
      if eventCounter % CLEANUP_EVERY != 0 { return; }
      transactionBuffers := DropStaleBuffers(transactionBuffers, now - STALE_BUFFER_TTL);
      order := EvictStalePendingCookies(later);
    }

    /** The cookie that came before the transaction's first chunk, if any. */
    method AdoptCookie(meta0: TxMeta, transactionId: u64) returns (meta: TxMeta)
      modifies this`pendingCookieByTxid, this`pendingCookieLRU
      ensures var was := old(View());
              var early := meta0.cookie == 0 && transactionId in was.cookies.items;
              && meta == (if early then meta0.(cookie := was.cookies.items[transactionId].value) else meta0)
              && View() == was.(cookies := if early then Delete(was.cookies, transactionId) else was.cookies)
    {
      hide Without;
      meta := meta0;
      if meta.cookie == 0 && transactionId in pendingCookieByTxid {
        var pe := pendingCookieByTxid[transactionId];
        meta := meta.(cookie := pe.value);
        pendingCookieLRU := Remove(pendingCookieLRU, pe.elem);
        pendingCookieByTxid := pendingCookieByTxid - {transactionId};
      }
    }

    method StoreChunkRecord(event: Chunk, now: i64)
      modifies this`transactionBuffers, this`pendingCookieByTxid, this`pendingCookieLRU
      ensures View() == TakeChunk(old(View()), event, now)
    {
      hide Delete;
      if event.txid !in transactionBuffers {
        var meta := AdoptCookie(event.meta, event.txid);
        var total := TotalChunks(event.meta.dataSize);
        transactionBuffers := transactionBuffers[event.txid := TxBuffer(now, seq(total, _ => None), meta, event.meta)];
      }
      var b := transactionBuffers[event.txid];
      if event.index < |b.chunks| {
        transactionBuffers := transactionBuffers[event.txid := b.(chunks := b.chunks[event.index := Some(event.data)])];
      }
    }

    method DeliverComplete(txid: u64, now: i64)
      requires RingValid() && txid in transactionBuffers && Complete(transactionBuffers[txid].chunks)
      modifies this, recentCookieRing
      ensures RingValid() && View() == Deliver(old(View()), txid, now)
      ensures inputs == old(inputs)
    {
      hide RouteMain, RingOk, Merge;
      var b := transactionBuffers[txid];
      var data := MergeChunks(b.chunks);
      transactionBuffers := transactionBuffers - {txid};
      if |data| <= 16 || |data| > CHUNK_SIZE * MAX_CHUNKS { return; }
      if b.meta.dataSize == 0 || b.meta.dataSize > |data| { return; }
      RouteMainEvent(NewMain(txid, b, data[..b.meta.dataSize], now), b.meta.cookie, txid, now);
    }

    method NoteChunkRecord(event: Chunk)
      modifies this`hist
      ensures View() == NoteChunk(old(View()), event)
    {
      hist := hist.(seen := hist.seen.(chunks := hist.seen.chunks + {event}));
    }

    method TakeChunkEvent(event: Chunk, now: i64, later: i64) returns (ghost order: seq<u64>)
      requires RingValid()
      modifies this, recentCookieRing
      ensures RingValid() && View() == HandleChunk(old(View()), event, now, later, order)
      ensures Ranged(old(View()), ChunkIn(event, now, later, order)) && inputs == old(inputs)
    {
      hide NoteChunk, TakeChunk, Deliver, MaybeCleanup, RingValid, View, HandleChunk, Enumerates;
      ghost var was := View();
      NoteChunkRecord(event);
      StoreChunkRecord(event, now);
      TakeFrame(was, event, now);
      Buffers();
      var complete := AllReceived(transactionBuffers[event.txid].chunks);
      if complete {
        DeliverFrame(View(), event.txid, now);
        DeliverComplete(event.txid, now);
      }
      order := Cleanup(now, later);
      HandleChunkIs(was, event, now, later, order);
    }

    lemma Buffers()
      ensures View().buffers == transactionBuffers
    {}

    static lemma TakeFrame(s: State, c: Chunk, now: i64)
      ensures TakeChunk(NoteChunk(s, c), c, now).eventCounter == s.eventCounter
    {
      hide TakeChunk;
      TakeChunkFrame(NoteChunk(s, c), c, now);
    }

    /** handleEvent. */
    method HandleEvent(event: Chunk, now: i64, later: i64) returns (ghost order: seq<u64>)
      requires Valid()
      modifies this, recentCookieRing
      ensures Valid() && inputs == old(inputs) + [ChunkIn(event, now, later, order)]
    {
      hide RingValid, View, Run, RangedRun, HandleChunk, Ranged;
      ghost var was := View();
      order := TakeChunkEvent(event, now, later);
      Made(ChunkIn(event, now, later, order), was);
      inputs := inputs + [ChunkIn(event, now, later, order)];
    }

    /** handleSideband. */
    method HandleSidebandEvent(sb: Sideband, now: i64)
      requires Valid()
      modifies this
      ensures Valid() && inputs == old(inputs) + [SidebandIn(sb, now)]
    {
      hide RingValid, View, Run, RangedRun, HandleSideband;
      ghost var was := View();
      HandleSidebandRecord(sb, now);
      Made(SidebandIn(sb, now), was);
      inputs := inputs + [SidebandIn(sb, now)];
    }

    method SweepPendingMain(now: int) returns (ghost order: seq<u64>)
      modifies this`pendingMain, this`pendingMainLRU, this`failures, this`emitted
      ensures Enumerates(order, old(View()).main.items) && View() == SweepMain(old(View()), now, order)
    {
      hide Expire, Expired, Enumerates;
      var items, list, out, o := DeleteOlder(pendingMain, pendingMainLRU, now - PENDING_MAIN_TTL);
      pendingMain, pendingMainLRU, order := items, list, o;
      EmitEarly(out);
    }

    method SweepPendingByTxid(now: int) returns (ghost order: seq<u64>)
      modifies this`pendingMainByTxid, this`pendingMainTxidLRU, this`failures, this`emitted
      ensures Enumerates(order, old(View()).byTxid.items) && View() == SweepByTxid(old(View()), now, order)
    {
      hide Expire, Expired, Enumerates;
      var items, list, out, o := DeleteOlder(pendingMainByTxid, pendingMainTxidLRU, now - PENDING_MAIN_TTL);
      pendingMainByTxid, pendingMainTxidLRU, order := items, list, o;
      EmitEarly(out);
    }

    method SweepPendingOneway(now: int) returns (ghost order: seq<u64>)
      modifies this`pendingOneway, this`pendingOnewayLRU, this`failures
      ensures Enumerates(order, old(View()).oneway.items) && View() == SweepOneway(old(View()), now, order)
    {
      hide Expire, Expired, Enumerates;
      var items, list, out, o := DeleteOlder(pendingOneway, pendingOnewayLRU, now - PENDING_ONEWAY_TTL);
      pendingOneway, pendingOnewayLRU, order := items, list, o;
      failures := AddOrphans(failures, |out|);
    }

    method SweepRecentOneway(now: int) returns (ghost order: seq<u64>)
      modifies this`recentOneway, this`recentOnewayLRU
      ensures Enumerates(order, old(View()).recent.items) && View() == SweepRecent(old(View()), now, order)
    {
      hide Expire, Expired, Enumerates;
      var items, list, _, o := DeleteOlder(recentOneway, recentOnewayLRU, now - RECENT_ONEWAY_TTL);
      recentOneway, recentOnewayLRU, order := items, list, o;
    }

    /** The four maps in turn, each in whatever order the range takes. */
    method SweepMaps(now: i64) returns (ghost o: Orders)
      modifies this`pendingMain, this`pendingMainLRU, this`pendingMainByTxid, this`pendingMainTxidLRU
      modifies this`pendingOneway, this`pendingOnewayLRU, this`recentOneway, this`recentOnewayLRU
      modifies this`failures, this`emitted
      ensures Ranged(old(View()), SweepIn(now, o)) && View() == Sweep(old(View()), now, o)
    {
      hide Enumerates, SweepMain, SweepByTxid, SweepOneway, SweepRecent;
      var mains := SweepPendingMain(now);
      var waiting := SweepPendingByTxid(now);
      var oneways := SweepPendingOneway(now);
      var recents := SweepRecentOneway(now);
      o := Orders(mains, waiting, oneways, recents);
    }

    /** runSweep: nothing that waits afterwards was first routed before now - 5 s. */
    method RunSweep(now: i64) returns (ghost o: Orders)
      requires Valid()
      modifies this
      ensures Valid() && inputs == old(inputs) + [SweepIn(now, o)]
      ensures forall k :: k in pendingMain ==> pendingMain[k].value.base.timestamp >= now - PENDING_MAIN_TTL
      ensures forall k :: k in pendingMainByTxid ==>
                            pendingMainByTxid[k].value.base.timestamp >= now - PENDING_MAIN_TTL
    {
      hide RingValid, Run, RangedRun, Sweep, Ranged;
      ghost var was := View();
      o := SweepMaps(now);
      Made(SweepIn(now, o), was);
      Held(inputs, now, o);
      inputs := inputs + [SweepIn(now, o)];
    }

    static lemma Held(before: seq<Input>, now: i64, o: Orders)
      requires Ranged(Run(Init(), before), SweepIn(now, o))
      ensures var s := Run(Init(), before + [SweepIn(now, o)]);
              && (forall k :: k in s.main.items ==> s.main.items[k].value.base.timestamp >= now - PENDING_MAIN_TTL)
              && (forall k :: k in s.byTxid.items ==> s.byTxid.items[k].value.base.timestamp >= now - PENDING_MAIN_TTL)
    {
      hide Run;
      assert before + [SweepIn(now, o)] + [] == before + [SweepIn(now, o)];
      BoundedHolding(before, now, o, []);
    }

    /** The sweeper's call of evictStalePendingCookies. */
    method SweepCookies(now: i64) returns (ghost order: seq<u64>)
      requires Valid()
      modifies this
      ensures Valid() && inputs == old(inputs) + [SweepCookiesIn(now, order)]
    {
      hide RingValid, View, Run, RangedRun, ExpireCookies, Enumerates;
      ghost var was := View();
      order := EvictStalePendingCookies(now);
      Made(SweepCookiesIn(now, order), was);
      inputs := inputs + [SweepCookiesIn(now, order)];
    }
  }
}
