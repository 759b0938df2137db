// InMemoryEventStore: sessions of recorded events, deduplicated by id and read
// back in replay order.
module EventStores {
  import opened Common
  import opened Events

  // -- one session ------------------------------------------------------------

  ghost predicate DistinctEvents(events: seq<Event>) {
    forall i, j :: 0 <= i < j < |events| ==> events[i].id != events[j].id
  }

  function IdsOf(events: seq<Event>): (ids: set<string>) {
    set e | e in events :: e.id
  }

  // Storing one event: a payload no store can hold raises, a redelivery is a
  // no-op.
  function Appended(held: seq<Event>, e: Event): (r: seq<Event>) {
    if !e.finite || e.id in IdsOf(held) then held else held + [e]
  }

  datatype AppendResult = AppendResult(held: seq<Event>, raised: bool)

  // Storing a batch stops at the first event that raises.
  function AppendedMany(held: seq<Event>, batch: seq<Event>): (r: AppendResult)
    decreases |batch|
  {
    if batch == [] then AppendResult(held, false)
    else if !batch[0].finite then AppendResult(held, true)
    else AppendedMany(Appended(held, batch[0]), batch[1..])
  }

  // Every id names one event.
  ghost predicate OneEventPerId(events: seq<Event>) {
    forall a, b :: a in events && b in events && a.id == b.id ==> a == b
  }

  // Deduplication loses nothing and invents nothing.
  lemma {:induction false} BatchStored(held: seq<Event>, batch: seq<Event>)
    requires DistinctEvents(held)
    ensures var r := AppendedMany(held, batch);
      && DistinctEvents(r.held) && held <= r.held
      && (forall e :: e in r.held ==> e in held || e in batch)
      && (r.raised <==> exists e :: e in batch && !e.finite)
      && (!r.raised ==> IdsOf(r.held) == IdsOf(held) + IdsOf(batch))
    decreases |batch|
  {
    if batch != [] {
      assert batch == [batch[0]] + batch[1..];
      if batch[0].finite {
        OneStored(held, batch[0]);
        BatchStored(Appended(held, batch[0]), batch[1..]);
      }
    }
  }

  lemma OneStored(held: seq<Event>, e: Event)
    requires DistinctEvents(held) && e.finite
    ensures var r := Appended(held, e);
      DistinctEvents(r) && held <= r && IdsOf(r) == IdsOf(held) + {e.id} && (forall x :: x in r ==> x in held || x == e)
  {
    var r := Appended(held, e);
    if e.id !in IdsOf(held) {
      assert forall x :: x in r <==> x in held || x == e;
      assert r[|held|] == e;
      forall i | 0 <= i < |held| ensures held[i].id != e.id {
        assert held[i] in held;
      }
    }
  }

  // -- reading ------------------------------------------------------------------

  datatype Query = Query(kinds: Option<set<string>>, startMs: Option<int>, endMs: Option<int>) {
    predicate Selects(e: Event) {
      && (kinds.None? || e.kind in kinds.value)
      && (startMs.None? || e.ts >= startMs.value)
      && (endMs.None? || e.ts <= endMs.value)
    }
  }

  function Inserted(sorted: seq<Event>, e: Event): (r: seq<Event>) {
    if sorted == [] || Before(e, sorted[0]) then [e] + sorted
    else [sorted[0]] + Inserted(sorted[1..], e)
  }

  function Sorted(events: seq<Event>): (r: seq<Event>) {
    if events == [] then [] else Inserted(Sorted(events[..|events| - 1]), events[|events| - 1])
  }

  function Selected(events: seq<Event>, q: Query): (r: seq<Event>) {
    if events == [] then []
    else Selected(events[..|events| - 1], q) + if q.Selects(events[|events| - 1]) then [events[|events| - 1]] else []
  }

  // What a read yields: the session sorted, then filtered.
  function Read(held: seq<Event>, q: Query): (r: seq<Event>) {
    Selected(Sorted(held), q)
  }

  lemma {:induction false} InsertedOrders(sorted: seq<Event>, e: Event)
    requires Ordered(sorted) && forall x :: x in sorted ==> x.id != e.id
    ensures Ordered(Inserted(sorted, e))
    ensures forall x :: x in Inserted(sorted, e) <==> x in sorted || x == e
  {
    hide Before;
    if sorted != [] {
      assert sorted == [sorted[0]] + sorted[1..];
      OrderTotal(e, sorted[0]);
      if Before(e, sorted[0]) {
        forall x | x in sorted ensures Before(e, x) {
          if x != sorted[0] {
            OrderTransitive(e, sorted[0], x);
          }
        }
      } else {
        InsertedOrders(sorted[1..], e);
        var rest := Inserted(sorted[1..], e);
        forall i | 0 <= i < |rest| ensures Before(sorted[0], rest[i]) {
          assert rest[i] in rest;
        }
      }
    }
  }

  lemma {:induction false} SortedOrders(events: seq<Event>)
    requires DistinctEvents(events)
    ensures Ordered(Sorted(events))
    ensures forall x :: x in Sorted(events) <==> x in events
  {
    if events != [] {
      var before, last := events[..|events| - 1], events[|events| - 1];
      SortedOrders(before);
      assert events == before + [last];
      InsertedOrders(Sorted(before), last);
    }
  }

  lemma {:induction false} SelectedOrders(events: seq<Event>, q: Query)
    requires Ordered(events)
    ensures Ordered(Selected(events, q))
    ensures forall x :: x in Selected(events, q) <==> x in events && q.Selects(x)
  {
    if events != [] {
      var before, last := events[..|events| - 1], events[|events| - 1];
      assert events == before + [last];
      SelectedOrders(before, q);
      forall x | x in Selected(before, q) ensures Before(x, last) {
        assert x in before;
      }
    }
  }

  // A read is the one ordering of the selected events, each once.
  lemma ReadOrders(held: seq<Event>, q: Query)
    requires DistinctEvents(held)
    ensures Ordered(Read(held, q))
    ensures forall x :: x in Read(held, q) <==> x in held && q.Selects(x)
  {
    SortedOrders(held);
    SelectedOrders(Sorted(held), q);
  }

  // Which events those are: of the kinds asked for, from the first millisecond
  // to the last, both included.
  lemma ReadSelects(held: seq<Event>, kinds: Option<set<string>>, first: Option<int>, last: Option<int>, e: Event)
    requires DistinctEvents(held)
    ensures e in Read(held, Query(kinds, first, last)) <==>
      && e in held && (kinds.Some? ==> e.kind in kinds.value)
      && (first.Some? ==> first.value <= e.ts) && (last.Some? ==> e.ts <= last.value)
  {
    hide Read;
    ReadOrders(held, Query(kinds, first, last));
  }

  // Filtering what is sorted is sorting what was filtered.
  lemma ReadIsSortedSelection(held: seq<Event>, q: Query)
    requires DistinctEvents(held)
    ensures Read(held, q) == Sorted(Selected(held, q))
  {
    hide Read, Sorted, Query.Selects;
    ReadOrders(held, q);
    SelectedDistinct(held, q);
    SortedOrders(Selected(held, q));
    OrderingIsUnique(Read(held, q), Sorted(Selected(held, q)));
  }

  lemma {:induction false} SelectedDistinct(events: seq<Event>, q: Query)
    requires DistinctEvents(events)
    ensures DistinctEvents(Selected(events, q))
    ensures forall x :: x in Selected(events, q) <==> x in events && q.Selects(x)
  {
    hide Query.Selects;
    if events != [] {
      var before, last := events[..|events| - 1], events[|events| - 1];
      assert events == before + [last];
      SelectedDistinct(before, q);
      var kept := Selected(before, q);
      forall i | 0 <= i < |kept| ensures kept[i].id != last.id {
        assert kept[i] in before;
      }
    }
  }

  // Reading a span in two windows, the second from the millisecond after the
  // first, reads it whole: nothing is missed in between and nothing comes twice.
  lemma WindowsTile(held: seq<Event>, kinds: Option<set<string>>, first: Option<int>, last: Option<int>, cut: int)
    requires DistinctEvents(held)
    requires (first.Some? ==> first.value <= cut) && (last.Some? ==> cut < last.value)
    ensures Read(held, Query(kinds, first, Some(cut))) + Read(held, Query(kinds, Some(cut + 1), last))
         == Read(held, Query(kinds, first, last))
  {
    hide Read;
    var a, b := Query(kinds, first, Some(cut)), Query(kinds, Some(cut + 1), last);
    ReadOrders(held, a);
    ReadOrders(held, b);
    ReadOrders(held, Query(kinds, first, last));
    EarlierFirst(Read(held, a), Read(held, b), cut);
    OrderingIsUnique(Read(held, a) + Read(held, b), Read(held, Query(kinds, first, last)));
  }

  lemma EarlierFirst(a: seq<Event>, b: seq<Event>, cut: int)
    requires Ordered(a) && Ordered(b)
    requires (forall e :: e in a ==> e.ts <= cut) && (forall e :: e in b ==> e.ts > cut)
    ensures Ordered(a + b)
  {
    hide Before;
    forall i, j | 0 <= i < j < |a + b| ensures Before((a + b)[i], (a + b)[j]) {
      if i < |a| <= j {
        assert (a + b)[i] in a && (a + b)[j] in b;
        EarlierBefore((a + b)[i], (a + b)[j]);
      }
    }
  }

  lemma EarlierBefore(a: Event, b: Event)
    requires a.ts < b.ts
    ensures Before(a, b)
  {
  }

  // Whatever the order, the batching and the redeliveries, sessions that were
  // given the same events read back the same, under every query; and filtering
  // what is read is reading what was filtered.
  lemma ReadIsCanonical(a: seq<Event>, b: seq<Event>, q: Query)
    requires OneEventPerId(a) && (forall e :: e in a <==> e in b) && (forall e :: e in a ==> e.finite)
    ensures Read(AppendedMany([], a).held, q) == Read(AppendedMany([], b).held, q)
    ensures forall e :: e in Read(AppendedMany([], a).held, q) <==> e in a && q.Selects(e)
    ensures Read(AppendedMany([], a).held, q) == Sorted(Selected(AppendedMany([], a).held, q))
  {
    hide AppendedMany, Read, Query.Selects, Sorted, Selected;
    BatchStored([], a);
    BatchStored([], b);
    HeldExactly(a);
    HeldExactly(b);
    ReadOrders(AppendedMany([], a).held, q);
    ReadIsSortedSelection(AppendedMany([], a).held, q);
    ReadOrders(AppendedMany([], b).held, q);
    OrderingIsUnique(Read(AppendedMany([], a).held, q), Read(AppendedMany([], b).held, q));
  }

  lemma HeldExactly(events: seq<Event>)
    requires OneEventPerId(events) && forall e :: e in events ==> e.finite
    ensures forall e :: e in AppendedMany([], events).held <==> e in events
  {
    hide AppendedMany;
    BatchStored([], events);
    var held := AppendedMany([], events).held;
    forall e | e in events ensures e in held {
      assert e.id in IdsOf(held);
    }
  }

  // -- the class ------------------------------------------------------------------

  class InMemoryEventStore {
    var events: map<string, seq<Event>>
    var seen: map<string, set<string>>

    // The seen-set of a session is the ids it holds.
    ghost predicate Valid()
      reads this
    {
      && seen.Keys == events.Keys
      && forall session :: session in events ==>
           DistinctEvents(events[session]) && seen[session] == IdsOf(events[session])
    }

    function Held(session: string): (r: seq<Event>)
      reads this
    {
      if session in events then events[session] else []
    }

    constructor ()
      ensures Valid() && events == map[]
    {
      events, seen := map[], map[];
    }

    // Stores an event, ignoring a redelivery; raises on a payload no store can hold.
    method Append(session: string, e: Event) returns (raised: bool)
      requires Valid()
      modifies this
      ensures Valid()
      ensures raised <==> !e.finite
      ensures Held(session) == Appended(old(Held(session)), e)
      ensures forall other :: other != session ==> Held(other) == old(Held(other))
    {
      if !e.finite {
        return true;
      }
      var ids := if session in seen then seen[session] else {};
      var held := if session in events then events[session] else [];
      if e.id in ids {
        return false;
      }
      OneStored(held, e);
      seen := seen[session := ids + {e.id}];
      events := events[session := held + [e]];
      return false;
    }

    // Stores a batch in order, up to the first event that raises.
    method AppendMany(session: string, batch: seq<Event>) returns (raised: bool)
      requires Valid()
      modifies this
      ensures Valid()
      ensures AppendResult(Held(session), raised) == AppendedMany(old(Held(session)), batch)
      ensures forall other :: other != session ==> Held(other) == old(Held(other))
    {
      raised := false;
      for i := 0 to |batch|
        invariant Valid() && !raised
        invariant AppendedMany(old(Held(session)), batch) == AppendedMany(Held(session), batch[i..])
        invariant forall other :: other != session ==> Held(other) == old(Held(other))
      {
        assert batch[i..][0] == batch[i] && batch[i..][1..] == batch[i + 1..];
        raised := Append(session, batch[i]);
        if raised {
          return;
        }
      }
      assert batch[|batch|..] == [];
    }

    // Yields the selected events of a session in replay order.
    method ReadSession(session: string, q: Query) returns (r: seq<Event>)
      ensures r == Read(Held(session), q)
    {
      var sorted := Sorted(Held(session));
      r := [];
      for i := 0 to |sorted|
        invariant r == Selected(sorted[..i], q)
      {
        assert sorted[..i + 1][..i] == sorted[..i];
        if q.kinds.Some? && sorted[i].kind !in q.kinds.value {
          continue;
        }
        if q.startMs.Some? && sorted[i].ts < q.startMs.value {
          continue;
        }
        if q.endMs.Some? && sorted[i].ts > q.endMs.value {
          continue;
        }
        r := r + [sorted[i]];
      }
      assert sorted[..|sorted|] == sorted;
    }
  }
}
