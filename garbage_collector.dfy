/**
 * One sweep of the stateful session bean garbage collector: every stored bean
 * whose lifetime lies before the time sampled at the start of the sweep is
 * removed and handed to the bean manager's destroy hook; the sweep counts the
 * beans it keeps.
 */
module GarbageCollector {
  import opened Wrappers
  import opened BeanManager
  import BeanLocator

  /** The pause between two sweeps of the collector daemon, in microseconds. */
  const GarbageCollectionTimeout: nat := 5000000

  /** `getDefaultTimeout`: five seconds, in microseconds. */
  function GetDefaultTimeout(): (r: nat)
    ensures r == 5 * 1000 * 1000
  {
    GarbageCollectionTimeout
  }

  /** The identifiers whose lifetime lies strictly before the given time. */
  function Expired(store: map<Identifier, Stored>, now: int): (r: set<Identifier>)
    ensures forall id :: id in r <==> id in store && store[id].lifetime < now
  {
    set id | id in store && store[id].lifetime < now
  }

  /** The store after a sweep at the given time: the entries whose lifetime is not before it. */
  function Sweep(store: map<Identifier, Stored>, now: int): (r: map<Identifier, Stored>)
    ensures forall id :: id in r <==> id in store && store[id].lifetime >= now
    ensures forall id :: id in r ==> r[id] == store[id]
  {
    map id | id in store && store[id].lifetime >= now :: store[id]
  }

  /**
   * The events of one sweep: one `Destroyed` per expired identifier, carrying the
   * bean that was stored under it, and no identifier twice.
   */
  predicate DestroysEachExpiredOnce(events: seq<Event>, store: map<Identifier, Stored>, now: int) {
    (forall i :: 0 <= i < |events| ==>
       events[i].Destroyed? && events[i].id in store && store[events[i].id].lifetime < now &&
       events[i].bean == store[events[i].id].bean) &&
    (forall i, j :: 0 <= i < j < |events| ==> events[i].id != events[j].id) &&
    (forall id :: id in store && store[id].lifetime < now ==> Destroyed(id, store[id].bean) in events)
  }

  /** The trace after a sweep: the trace before it, then the sweep's destroy events. */
  predicate SweepTrace(before: seq<Event>, after: seq<Event>, store: map<Identifier, Stored>, now: int) {
    |after| >= |before| && after[..|before|] == before && DestroysEachExpiredOnce(after[|before|..], store, now)
  }

  /** The store part way through a sweep: the entries still to visit, and the visited ones that were kept. */
  function SweptExcept(store: map<Identifier, Stored>, remaining: set<Identifier>, now: int): map<Identifier, Stored> {
    map id | id in store && (id in remaining || store[id].lifetime >= now) :: store[id]
  }

  /** The identifiers visited so far whose entries were kept. */
  function KeptExcept(store: map<Identifier, Stored>, remaining: set<Identifier>, now: int): set<Identifier> {
    set id | id in store && id !in remaining && store[id].lifetime >= now
  }

  /** The identifiers visited so far whose entries had expired. */
  function GoneExcept(store: map<Identifier, Stored>, remaining: set<Identifier>, now: int): set<Identifier> {
    set id | id in store && id !in remaining && store[id].lifetime < now
  }

  /**
   * The destroy events so far: each destroys a gone identifier with the bean stored
   * under it, no identifier twice, and every gone identifier has one.
   */
  ghost predicate DestroysOnce(events: seq<Event>, gone: set<Identifier>, store: map<Identifier, Stored>) {
    (forall i :: 0 <= i < |events| ==>
       events[i].Destroyed? && events[i].id in gone && events[i].id in store && events[i].bean == store[events[i].id].bean) &&
    (forall i, j :: 0 <= i < j < |events| ==> events[i].id != events[j].id) &&
    (forall id :: id in gone ==> id in store && Destroyed(id, store[id].bean) in events)
  }

  /** Visiting one identifier: an expired one leaves the store and is destroyed, a live one joins the kept ones. */
  lemma VisitStep(store: map<Identifier, Stored>, remaining: set<Identifier>, events: seq<Event>, x: Identifier, now: int)
    requires remaining <= store.Keys && x in remaining
    requires DestroysOnce(events, GoneExcept(store, remaining, now), store)
    ensures x in SweptExcept(store, remaining, now) && SweptExcept(store, remaining, now)[x] == store[x]
    ensures store[x].lifetime < now ==>
      DestroysOnce(events + [Destroyed(x, store[x].bean)], GoneExcept(store, remaining - {x}, now), store) &&
      SweptExcept(store, remaining - {x}, now) == SweptExcept(store, remaining, now) - {x} &&
      KeptExcept(store, remaining - {x}, now) == KeptExcept(store, remaining, now)
    ensures store[x].lifetime >= now ==>
      DestroysOnce(events, GoneExcept(store, remaining - {x}, now), store) &&
      SweptExcept(store, remaining - {x}, now) == SweptExcept(store, remaining, now) &&
      |KeptExcept(store, remaining - {x}, now)| == |KeptExcept(store, remaining, now)| + 1
  {
    var gone := GoneExcept(store, remaining, now);
    if store[x].lifetime < now {
      assert GoneExcept(store, remaining - {x}, now) == gone + {x};
      assert x !in gone;
      var events' := events + [Destroyed(x, store[x].bean)];
      forall id | id in gone + {x} ensures Destroyed(id, store[id].bean) in events' {
        if id != x {
          assert Destroyed(id, store[id].bean) in events;
        }
      }
    } else {
      assert GoneExcept(store, remaining - {x}, now) == gone;
      assert KeptExcept(store, remaining - {x}, now) == KeptExcept(store, remaining, now) + {x};
    }
  }

  /**
   * `collectGarbage` at the time `actualTime` (one `time()` sample, taken by the
   * caller): walks the lifetime map, removes and destroys each entry whose
   * lifetime is before that time and counts the others.
   */
  method CollectGarbage(bm: BeanManager, actualTime: int) returns (counter: nat)
    modifies bm
    ensures bm.statefulBeans == Sweep(old(bm.statefulBeans), actualTime)
    ensures counter == |Sweep(old(bm.statefulBeans), actualTime).Keys|
    ensures bm.singletonBeans == old(bm.singletonBeans) && bm.constructed == old(bm.constructed)
    ensures SweepTrace(old(bm.trace), bm.trace, old(bm.statefulBeans), actualTime)
  {
    var lifetimeMap := Lifetimes(bm.statefulBeans);
    ghost var store := bm.statefulBeans;
    ghost var trace0 := bm.trace;
    ghost var events: seq<Event> := [];
    var remaining := lifetimeMap.Keys;
    counter := 0;
    while remaining != {}
      invariant remaining <= store.Keys
      invariant DestroysOnce(events, GoneExcept(store, remaining, actualTime), store)
      invariant bm.singletonBeans == old(bm.singletonBeans) && bm.constructed == old(bm.constructed)
      invariant bm.statefulBeans == SweptExcept(store, remaining, actualTime)
      invariant counter == |KeptExcept(store, remaining, actualTime)|
      invariant bm.trace == trace0 + events
      decreases remaining
    {
      var identifier :| identifier in remaining;
      var lifetime := lifetimeMap[identifier];
      VisitStep(store, remaining, events, identifier, actualTime);
      if lifetime < actualTime {
        bm.RemoveStateful(identifier);
        events := events + [Destroyed(identifier, store[identifier].bean)];
      } else {
        counter := counter + 1;
      }
      remaining := remaining - {identifier};
    }
    SweepComplete(store, trace0, events, actualTime);
  }

  /**
   * Once every identifier is visited, the store is the swept one, the kept ones are
   * its keys, and the removed ones, each once, are exactly the expired ones.
   */
  lemma SweepComplete(store: map<Identifier, Stored>, trace0: seq<Event>, events: seq<Event>, now: int)
    requires DestroysOnce(events, GoneExcept(store, {}, now), store)
    ensures SweptExcept(store, {}, now) == Sweep(store, now)
    ensures |KeptExcept(store, {}, now)| == |Sweep(store, now).Keys|
    ensures SweepTrace(trace0, trace0 + events, store, now)
  {
    assert KeptExcept(store, {}, now) == Sweep(store, now).Keys;
    assert (trace0 + events)[|trace0|..] == events;
    assert (trace0 + events)[..|trace0|] == trace0;
  }

  /** A sweep removes an entry exactly when its lifetime is before the sampled time; the rest stay as they were. */
  lemma SweepRemovesExactlyExpired(store: map<Identifier, Stored>, now: int)
    ensures Sweep(store, now).Keys == store.Keys - Expired(store, now)
    ensures Expired(store, now) !! Sweep(store, now).Keys
  {
  }

  /** An entry whose lifetime equals the sampled time survives the sweep. */
  lemma LifetimeEqualToNowSurvives(store: map<Identifier, Stored>, id: Identifier, now: int)
    requires id in store && store[id].lifetime == now
    ensures id in Sweep(store, now) && Sweep(store, now)[id] == store[id]
  {
  }

  /** Sweeping twice is sweeping once at the later of the two times. */
  lemma SweepTwice(store: map<Identifier, Stored>, t1: int, t2: int)
    ensures Sweep(Sweep(store, t1), t2) == Sweep(store, if t1 < t2 then t2 else t1)
  {
  }

  /** The kept and the removed entries together are all the entries the sweep saw. */
  lemma KeptPlusRemovedIsAll(store: map<Identifier, Stored>, now: int)
    ensures |Sweep(store, now).Keys| + |Expired(store, now)| == |store.Keys|
  {
    var kept := Sweep(store, now).Keys;
    var gone := Expired(store, now);
    assert kept + gone == store.Keys;
    assert kept * gone == {};
  }

  /** Distinct elements of a sequence: the set of them has as many members as the sequence. */
  lemma {:induction false} DistinctCount<T>(xs: seq<T>)
    requires forall i, j :: 0 <= i < j < |xs| ==> xs[i] != xs[j]
    ensures |set i | 0 <= i < |xs| :: xs[i]| == |xs|
  {
    if xs != [] {
      var init := xs[..|xs| - 1];
      DistinctCount(init);
      var last := xs[|xs| - 1];
      assert (set i | 0 <= i < |xs| :: xs[i]) == (set i | 0 <= i < |init| :: init[i]) + {last};
      assert last !in (set i | 0 <= i < |init| :: init[i]);
    }
  }

  /** The destroy hook runs exactly as many times as there are expired entries. */
  lemma DestroyCountIsExpiredCount(events: seq<Event>, store: map<Identifier, Stored>, now: int)
    requires DestroysEachExpiredOnce(events, store, now)
    ensures |events| == |Expired(store, now)|
  {
    var ids := seq(|events|, i requires 0 <= i < |events| => events[i].id);
    DistinctCount(ids);
    assert (set i | 0 <= i < |ids| :: ids[i]) == Expired(store, now) by {
      forall id ensures id in (set i | 0 <= i < |ids| :: ids[i]) <==> id in Expired(store, now) {
        if id in Expired(store, now) {
          var i :| 0 <= i < |events| && events[i] == Destroyed(id, store[id].bean);
          assert ids[i] == id;
        }
      }
    }
  }

  /**
   * After a sweep, looking up a stateful bean whose entry had expired creates a
   * new instance instead of returning the destroyed one.
   */
  lemma ExpiredBeanIsRecreated(descriptors: map<ClassName, Descriptor>, stackable: set<ClassName>, s: ManagerState, now: int,
                               className: ClassName, sessionId: SessionId, args: seq<Arg>)
    requires BeanLocator.PolicyOf(descriptors, className) == Some(Stateful)
    requires Identifier(sessionId, className) in Expired(s.statefulBeans, now)
    ensures var swept := s.(statefulBeans := Sweep(s.statefulBeans, now));
      BeanLocator.LookupSpec(descriptors, stackable, swept, className, sessionId, args).0 ==
        Success(Instance(s.constructed, className, sessionId, args))
  {
    var swept := s.(statefulBeans := Sweep(s.statefulBeans, now));
    BeanLocator.StatefulMissConstructsOnce(descriptors, stackable, swept, className, sessionId, args);
  }
}
