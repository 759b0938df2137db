// The replay engine: a recorded session fed back one event at a time under a
// clock that follows the recording.
module Replaying {
  import opened Common
  import opened Events
  import opened EventStores

  // The value of a replay: where the clock stands, what has been published and
  // at which clock time, and what is left to publish.
  datatype Replay = Replay(
    clock: int, published: seq<Event>, clocks: seq<int>, first: Option<int>, last: Option<int>,
    remaining: seq<Event>, finished: bool)

  function Opened(start: int, recording: seq<Event>): (r: Replay) {
    Replay(start, [], [], None, None, recording, false)
  }

  function Later(a: int, b: int): (r: int) {
    if a >= b then a else b
  }

  function Stepped(r: Replay): (s: Replay) {
    if r.remaining == [] then r.(finished := true)
    else
      var e := r.remaining[0];
      var clock := Later(r.clock, e.ts);
      r.(clock := clock, published := r.published + [e], clocks := r.clocks + [clock],
         first := if r.first.None? then Some(e.ts) else r.first, last := Some(e.ts), remaining := r.remaining[1..])
  }

  // Replays to the end, or until `max` events were published.
  function Ran(r: Replay, max: Option<nat>): (s: Replay)
    decreases |r.remaining|
  {
    if max == Some(0) then r
    else if r.remaining == [] then Stepped(r)
    else Ran(Stepped(r), if max.Some? then Some(max.value - 1) else None)
  }

  function Limit(n: nat, max: Option<nat>): (k: nat)
    ensures k <= n
  {
    if max.Some? && max.value < n then max.value else n
  }

  // The clock at each of the first `n` events, from a given start.
  function ClocksOf(clock: int, events: seq<Event>, n: nat): (r: seq<int>)
    requires n <= |events|
    ensures |r| == n
    ensures forall i :: 0 <= i < n ==> r[i] == Later(clock, events[i].ts)
  {
    seq(n, i requires 0 <= i < n => Later(clock, events[i].ts))
  }

  // `s` has published the next `n` events of `r`, in order and unchanged, each
  // at the clock it called for, and keeps the rest.
  ghost predicate Publishes(r: Replay, s: Replay, n: nat)
    requires n <= |r.remaining|
  {
    && s.published == r.published + r.remaining[..n]
    && s.remaining == r.remaining[n..]
    && s.clocks == r.clocks + ClocksOf(r.clock, r.remaining, n)
    && s.clock == (if n == 0 then r.clock else Later(r.clock, r.remaining[n - 1].ts))
    && s.last == (if n == 0 then r.last else Some(r.remaining[n - 1].ts))
    && s.first == (if r.first.Some? || n == 0 then r.first else Some(r.remaining[0].ts))
  }

  lemma {:induction false} RunPublishes(r: Replay, max: Option<nat>)
    requires Ordered(r.remaining)
    ensures Publishes(r, Ran(r, max), Limit(|r.remaining|, max))
    decreases |r.remaining|
  {
    hide Before, Ordered, Publishes;
    if max == Some(0) || r.remaining == [] {
      PublishesNone(r, Ran(r, max));
    } else {
      var rest := if max.Some? then Some(max.value - 1) else None;
      OrderedTail(r.remaining);
      RunPublishes(Stepped(r), rest);
      TimesAscend(r.remaining);
      PublishesOneMore(r, Ran(r, max), Limit(|r.remaining|, max));
    }
  }

  lemma PublishesNone(r: Replay, s: Replay)
    requires s == r.(finished := s.finished)
    ensures Publishes(r, s, 0)
  {
  }

  lemma PublishesOneMore(r: Replay, s: Replay, n: nat)
    requires 0 < n <= |r.remaining| && Publishes(Stepped(r), s, n - 1)
    requires forall i, j :: 0 <= i <= j < |r.remaining| ==> r.remaining[i].ts <= r.remaining[j].ts
    ensures Publishes(r, s, n)
  {
    hide ClocksOf;
    PrefixSteps(r.published, r.remaining, n);
    ClocksFold(r.clock, r.remaining, n);
    assert n > 1 ==> r.remaining[1..][n - 2] == r.remaining[n - 1];
  }

  lemma OrderedTail(events: seq<Event>)
    requires Ordered(events) && events != []
    ensures Ordered(events[1..])
  {
    hide Before;
  }

  lemma PrefixSteps(published: seq<Event>, events: seq<Event>, n: nat)
    requires 0 < n <= |events|
    ensures published + [events[0]] + events[1..][..n - 1] == published + events[..n]
    ensures events[1..][n - 1..] == events[n..]
  {
    assert events[..n] == [events[0]] + events[1..][..n - 1];
  }


  lemma TimesAscend(events: seq<Event>)
    requires Ordered(events)
    ensures forall i, j :: 0 <= i <= j < |events| ==> events[i].ts <= events[j].ts
  {
    forall i, j | 0 <= i < j < |events| ensures events[i].ts <= events[j].ts {
      assert Before(events[i], events[j]);
    }
  }

  // The clock after the first event serves every later one as well.
  lemma ClocksFold(clock: int, events: seq<Event>, n: nat)
    requires 0 < n <= |events| && forall i, j :: 0 <= i <= j < |events| ==> events[i].ts <= events[j].ts
    ensures ClocksOf(clock, events, n)
      == [Later(clock, events[0].ts)] + ClocksOf(Later(clock, events[0].ts), events[1..], n - 1)
  {
    hide ClocksOf;
  }

  // Replaying a recorded session from `start`: every selected event is
  // published once, in the recording's order, at a clock that is the later of
  // the start and the event's own time; so the clock never runs backwards and
  // ends at the later of the start and the last event.
  lemma ReplayFollowsRecording(held: seq<Event>, q: Query, start: int)
    requires DistinctEvents(held)
    ensures var s := Ran(Opened(start, Read(held, q)), None);
      && s.published == Read(held, q) && s.remaining == []
      && (forall e :: e in s.published <==> e in held && q.Selects(e))
      && |s.clocks| == |s.published|
      && (forall i :: 0 <= i < |s.clocks| ==>
            s.clocks[i] == if s.published[i].ts > start then s.published[i].ts else start)
      && (forall i, j :: 0 <= i < j < |s.clocks| ==> s.clocks[i] <= s.clocks[j])
      && s.clock == if s.clocks == [] then start else s.clocks[|s.clocks| - 1]
  {
    hide Read, Query.Selects, Ordered, Ran, ClocksOf, DistinctEvents;
    ReadOrders(held, q);
    TimesAscend(Read(held, q));
    RunPublishes(Opened(start, Read(held, q)), None);
  }

  class ReplaySession {
    var clock: int
    var published: seq<Event>
    var firstTs: Option<int>
    var lastTs: Option<int>
    var eventsRead: nat
    var unread: seq<Event>
    var finished: bool
    ghost var clocks: seq<int>

    ghost function View(): Replay
      reads this
    {
      Replay(clock, published, clocks, firstTs, lastTs, unread, finished)
    }

    // Opens a replay of what the store yields for a query.
    constructor (store: InMemoryEventStore, session: string, q: Query, start: int)
      ensures View() == Opened(start, Read(store.Held(session), q))
      ensures eventsRead == 0
    {
      new;
      var recording := store.ReadSession(session, q);
      clock, published, clocks, firstTs, lastTs := start, [], [], None, None;
      eventsRead, unread, finished := 0, recording, false;
    }

    // Publishes exactly one recorded event; None at the end.
    method Step() returns (e: Option<Event>)
      modifies this
      ensures View() == Stepped(old(View()))
      ensures e == if old(unread) == [] then None else Some(old(unread)[0])
      ensures eventsRead == old(eventsRead) + if e.Some? then 1 else 0
    {
      if unread == [] {
        finished := true;
        return None;
      }
      var event := unread[0];
      unread := unread[1..];
      eventsRead := eventsRead + 1;
      if firstTs.None? {
        firstTs := Some(event.ts);
      }
      lastTs := Some(event.ts);
      if event.ts > clock {
        clock := event.ts;
      }
      published, clocks := published + [event], clocks + [clock];
      return Some(event);
    }

    // Replays to the end, or up to `max` events.
    method Run(max: Option<nat>)
      modifies this
      ensures View() == Ran(old(View()), max)
    {
      var done := 0;
      while max.None? || done < max.value
        invariant max.Some? ==> done <= max.value
        invariant Ran(old(View()), max) == Ran(View(), if max.Some? then Some(max.value - done) else None)
        decreases |unread|
      {
        var e := Step();
        if e.None? {
          return;
        }
        done := done + 1;
      }
    }
  }
}
