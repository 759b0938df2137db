// The event envelope and its deterministic replay order.
module Events {
  import opened Common

  // `finite` says the payload can be serialised by every store.
  datatype Event = Event(id: string, kind: string, ts: int, sequence: Option<int>, finite: bool)

  function SequenceOf(e: Event): (n: int) {
    if e.sequence.Some? then e.sequence.value else 0
  }

  // Lexicographic order of ids.
  predicate IdBefore(a: string, b: string) {
    if b == [] then false
    else if a == [] then true
    else a[0] < b[0] || (a[0] == b[0] && IdBefore(a[1..], b[1..]))
  }

  // The order of the sort key: timestamp, then sequence, then id.
  predicate Before(a: Event, b: Event) {
    || a.ts < b.ts
    || (a.ts == b.ts && SequenceOf(a) < SequenceOf(b))
    || (a.ts == b.ts && SequenceOf(a) == SequenceOf(b) && IdBefore(a.id, b.id))
  }

  lemma {:induction false} IdOrderTotal(a: string, b: string)
    ensures a == b || IdBefore(a, b) || IdBefore(b, a)
    ensures !(IdBefore(a, b) && IdBefore(b, a)) && !IdBefore(a, a)
  {
    if a != [] && b != [] {
      IdOrderTotal(a[1..], b[1..]);
      assert a == [a[0]] + a[1..] && b == [b[0]] + b[1..];
    }
    if a != [] {
      IdOrderTotal(a[1..], a[1..]);
    }
  }

  lemma {:induction false} IdOrderTransitive(a: string, b: string, c: string)
    requires IdBefore(a, b) && IdBefore(b, c)
    ensures IdBefore(a, c)
  {
    if a != [] && a[0] == b[0] == c[0] {
      IdOrderTransitive(a[1..], b[1..], c[1..]);
    }
  }

  lemma OrderTotal(a: Event, b: Event)
    requires a.id != b.id
    ensures Before(a, b) != Before(b, a)
  {
    IdOrderTotal(a.id, b.id);
  }

  lemma OrderIrreflexive(a: Event)
    ensures !Before(a, a)
  {
    IdOrderTotal(a.id, a.id);
  }

  lemma OrderTransitive(a: Event, b: Event, c: Event)
    requires Before(a, b) && Before(b, c)
    ensures Before(a, c)
  {
    if IdBefore(a.id, b.id) && IdBefore(b.id, c.id) {
      IdOrderTransitive(a.id, b.id, c.id);
    }
  }

  ghost predicate Ordered(events: seq<Event>) {
    forall i, j :: 0 <= i < j < |events| ==> Before(events[i], events[j])
  }

  lemma NoneAlone(a: seq<Event>, b: seq<Event>)
    requires b != [] && forall e :: e in b ==> e in a
    ensures a != []
  {
    assert b[0] in b;
  }

  // Two orderings of the same events are the same sequence.
  lemma {:induction false} OrderingIsUnique(a: seq<Event>, b: seq<Event>)
    requires Ordered(a) && Ordered(b)
    requires forall e :: e in a <==> e in b
    ensures a == b
  {
    hide Before;
    forall i | 0 <= i < |a| ensures a[i] in b {
      assert a[i] in a;
    }
    forall i | 0 <= i < |b| ensures b[i] in a {
      assert b[i] in b;
    }
    if b != [] {
      NoneAlone(a, b);
    }
    if a != [] {
      NoneAlone(b, a);
      if a[0] != b[0] {
        assert Before(a[0], b[0]) && Before(b[0], a[0]);
        OrderTransitive(a[0], b[0], a[0]);
        OrderIrreflexive(a[0]);
      }
      OrderIrreflexive(a[0]);
      assert a == [a[0]] + a[1..] && b == [b[0]] + b[1..];
      assert forall e :: e in a[1..] ==> Before(a[0], e);
      assert forall e :: e in b[1..] ==> Before(a[0], e);
      forall e ensures e in a[1..] <==> e in b[1..] {
        assert e in a <==> e in b;
      }
      OrderingIsUnique(a[1..], b[1..]);
    }
  }
}
