// InMemoryEventBus: a FIFO of publications, dispatched one at a time to the
// subscribers of the moment. Handlers may publish, subscribe, unsubscribe and
// raise as they please.
module Bus {
  import opened Common
  import opened Events

  // A publication; `stamped` when the bus numbered it.
  datatype Entry = Entry(event: Event, stamped: bool)

  // A subscription, with the history of its calls. `joined` and `left` count
  // the publications dispatched before it came and went.
  datatype Subscription = Subscription(
    types: Option<set<string>>, joined: nat, left: Option<nat>, calls: seq<Event>, delivered: nat, errors: nat)
  {
    predicate Wants(e: Event) {
      types.None? || e.kind in types.value
    }
  }

  // The value of a bus. Every publication ever made is in `log`; the queue is
  // what lies beyond `dispatched`. Subscriptions are numbered as they come.
  datatype BusState = BusState(
    log: seq<Entry>, dispatched: nat, active: seq<nat>, all: seq<Subscription>, calls: nat, nextSequence: nat)

  const NEW_BUS := BusState([], 0, [], [], 0, 1)

  // What a handler, or anyone else, may do to the bus.
  datatype Act = Publish(event: Event) | Subscribe(types: Option<set<string>>) | Unsubscribe(id: nat)

  // What one handler call does, in order, and whether it then raises.
  datatype Reaction = Reaction(acts: seq<Act>, raises: bool)

  // The behaviour of all handlers together: the n-th call's reaction.
  type Script = nat -> Reaction

  // -- the operations as functions ----------------------------------------------

  function Published(b: BusState, e: Event): (r: BusState) {
    if e.sequence.Some? then b.(log := b.log + [Entry(e, false)])
    else b.(log := b.log + [Entry(e.(sequence := Some(b.nextSequence)), true)], nextSequence := b.nextSequence + 1)
  }

  function Subscribed(b: BusState, types: Option<set<string>>): (r: BusState) {
    b.(active := b.active + [|b.all|], all := b.all + [Subscription(types, b.dispatched, None, [], 0, 0)])
  }

  function Without(ids: seq<nat>, id: nat): (r: seq<nat>) {
    if ids == [] then [] else if ids[0] == id then ids[1..] else [ids[0]] + Without(ids[1..], id)
  }

  function Unsubscribed(b: BusState, id: nat): (r: BusState) {
    if id !in b.active || id >= |b.all| then b
    else b.(active := Without(b.active, id), all := b.all[id := b.all[id].(left := Some(b.dispatched))])
  }

  function Acted(b: BusState, act: Act): (r: BusState) {
    match act
    case Publish(e) => Published(b, e)
    case Subscribe(types) => Subscribed(b, types)
    case Unsubscribe(id) => Unsubscribed(b, id)
  }

  function ActedAll(b: BusState, acts: seq<Act>): (r: BusState)
    ensures |r.all| >= |b.all|
  {
    if acts == [] then b else Acted(ActedAll(b, acts[..|acts| - 1]), acts[|acts| - 1])
  }

  // One handler call: the call is made, its acts take effect, and it is
  // counted as delivered or failed.
  function Called(b: BusState, id: nat, e: Event, script: Script): (r: BusState)
    requires id < |b.all|
    ensures |r.all| >= |b.all|
  {
    if !b.all[id].Wants(e) then b
    else
      var reaction := script(b.calls);
      Counted(ActedAll(Noted(b, id, e), reaction.acts), id, reaction.raises)
  }

  function Noted(b: BusState, id: nat, e: Event): (r: BusState)
    requires id < |b.all|
    ensures |r.all| == |b.all|
  {
    b.(all := b.all[id := b.all[id].(calls := b.all[id].calls + [e])], calls := b.calls + 1)
  }

  function Counted(b: BusState, id: nat, raised: bool): (r: BusState)
    requires id < |b.all|
  {
    var s := b.all[id];
    b.(all := b.all[id := if raised then s.(errors := s.errors + 1) else s.(delivered := s.delivered + 1)])
  }

  function Delivered(b: BusState, ids: seq<nat>, e: Event, script: Script): (r: BusState)
    requires forall i :: 0 <= i < |ids| ==> ids[i] < |b.all|
    ensures |r.all| >= |b.all|
  {
    if ids == [] then b
    else Called(Delivered(b, ids[..|ids| - 1], e, script), ids[|ids| - 1], e, script)
  }

  ghost predicate Numbered(b: BusState) {
    forall i :: 0 <= i < |b.active| ==> b.active[i] < |b.all|
  }

  // Pops one publication and calls every subscription registered at that moment.
  function DispatchedOne(b: BusState, script: Script): (r: BusState)
    requires b.dispatched < |b.log| && Numbered(b)
  {
    Delivered(b.(dispatched := b.dispatched + 1), b.active, b.log[b.dispatched].event, script)
  }

  // -- what every subscription has seen ---------------------------------------------

  // The events of a type-filtered subscription, in order.
  function Wanted(entries: seq<Entry>, s: Subscription): (r: seq<Event>) {
    if entries == [] then []
    else
      var last := entries[|entries| - 1].event;
      Wanted(entries[..|entries| - 1], s) + if s.Wants(last) then [last] else []
  }

  // How many of the first `n` entries are of the types asked for.
  function Hits(entries: seq<Entry>, types: Option<set<string>>, n: nat): (k: nat)
    requires n <= |entries|
    ensures k <= n
  {
    if n == 0 then 0
    else Hits(entries, types, n - 1) + if types.Some? && entries[n - 1].event.kind !in types.value then 0 else 1
  }

  // A slice holds each event of the types asked for, behind exactly those before
  // it, and no other.
  lemma {:induction false} SliceIsFiltered(entries: seq<Entry>, s: Subscription, i: nat)
    ensures |Wanted(entries, s)| == Hits(entries, s.types, |entries|)
    ensures i < |entries| && (s.types.Some? ==> entries[i].event.kind in s.types.value) ==>
      Hits(entries, s.types, i) < |Wanted(entries, s)|
      && Wanted(entries, s)[Hits(entries, s.types, i)] == entries[i].event
  {
    if entries != [] {
      var last := |entries| - 1;
      SliceIsFiltered(entries[..last], s, i);
      HitsPrefix(entries, s.types, last, last);
      if i < last {
        HitsPrefix(entries, s.types, last, i);
      }
    }
  }

  lemma {:induction false} HitsPrefix(entries: seq<Entry>, types: Option<set<string>>, n: nat, i: nat)
    requires i <= n <= |entries|
    ensures Hits(entries[..n], types, i) == Hits(entries, types, i)
  {
    if i > 0 {
      HitsPrefix(entries, types, n, i - 1);
    }
  }

  // A subscription's calls are its slice of the log, less the publication
  // being dispatched while that is still owed to it.
  ghost predicate Complete(b: BusState, id: nat, owed: bool)
    requires id < |b.all|
  {
    var s := b.all[id];
    var until := if s.left.Some? then s.left.value else b.dispatched;
    && s.joined <= until <= b.dispatched <= |b.log|
    && (s.left.None? <==> id in b.active)
    && (owed ==> s.joined < until == b.dispatched)
    && s.calls == Wanted(b.log[s.joined..if owed then until - 1 else until], s)
  }

  ghost predicate BusInv(b: BusState, owed: set<nat>) {
    && b.dispatched <= |b.log|
    && Numbered(b) && (forall i, j :: 0 <= i < j < |b.active| ==> b.active[i] != b.active[j])
    && (forall id :: id in owed ==> id < |b.all|)
    && (forall id :: 0 <= id < |b.all| ==> Complete(b, id, id in owed))
  }

  // The bus's own numbers increase strictly along the log.
  ghost predicate Ascending(b: BusState) {
    && b.nextSequence > 0
    && (forall i :: 0 <= i < |b.log| && b.log[i].stamped ==>
          b.log[i].event.sequence.Some? && 0 < b.log[i].event.sequence.value < b.nextSequence)
    && (forall i, j :: 0 <= i < j < |b.log| && b.log[i].stamped && b.log[j].stamped ==>
          b.log[i].event.sequence.value < b.log[j].event.sequence.value)
  }

  // Every call is counted once, except the one in progress.
  ghost predicate Tallied(b: BusState, calling: Option<nat>) {
    forall id :: 0 <= id < |b.all| ==>
      b.all[id].delivered + b.all[id].errors + (if calling == Some(id) then 1 else 0) == |b.all[id].calls|
  }

  // What the bus keeps while `owed` subscriptions await the current publication.
  ghost predicate Keeps(b: BusState, owed: set<nat>, calling: Option<nat>) {
    BusInv(b, owed) && Ascending(b) && Tallied(b, calling)
  }

  // `r` came from `b` by acts alone.
  ghost predicate Grew(b: BusState, r: BusState) {
    b.log <= r.log && r.dispatched == b.dispatched && |b.all| <= |r.all|
  }

  lemma PublishKeeps(b: BusState, e: Event, owed: set<nat>, calling: Option<nat>)
    requires Keeps(b, owed, calling)
    ensures Keeps(Published(b, e), owed, calling)
  {
    hide Ascending, Tallied;
    var r := Published(b, e);
    PublishAscends(b, e);
    PublishTallies(b, e, calling);
    hide Published, Wanted;
    PublishedLog(b, e);
    forall id | 0 <= id < |r.all| ensures Complete(r, id, id in owed) {
      assert Complete(b, id, id in owed);
      assert forall i, j :: 0 <= i <= j <= |b.log| ==> r.log[i..j] == b.log[i..j];
    }
  }

  lemma PublishedLog(b: BusState, e: Event)
    ensures var r := Published(b, e);
      b.log <= r.log && r.active == b.active && r.all == b.all && r.dispatched == b.dispatched
  {
  }

  lemma PublishAscends(b: BusState, e: Event)
    requires Ascending(b)
    ensures Ascending(Published(b, e))
  {
  }

  lemma PublishTallies(b: BusState, e: Event, calling: Option<nat>)
    requires Tallied(b, calling)
    ensures Tallied(Published(b, e), calling)
  {
  }

  lemma SubscribeKeeps(b: BusState, types: Option<set<string>>, owed: set<nat>, calling: Option<nat>)
    requires Keeps(b, owed, calling) && (calling.Some? ==> calling.value < |b.all|)
    ensures Keeps(Subscribed(b, types), owed, calling)
  {
    var r := Subscribed(b, types);
    forall id | 0 <= id < |r.all| ensures Complete(r, id, id in owed) {
      if id < |b.all| {
        assert Complete(b, id, id in owed);
      }
    }
  }

  lemma {:induction false} WithoutOne(ids: seq<nat>, id: nat)
    requires forall i, j :: 0 <= i < j < |ids| ==> ids[i] != ids[j]
    ensures var r := Without(ids, id);
      && (forall i, j :: 0 <= i < j < |r| ==> r[i] != r[j])
      && (forall k :: k in r <==> k in ids && k != id)
  {
    if ids != [] {
      HeadIsAlone(ids);
      if ids[0] != id {
        WithoutOne(ids[1..], id);
        HeadStaysAlone(ids[0], Without(ids[1..], id));
      }
    }
  }

  lemma HeadIsAlone(ids: seq<nat>)
    requires ids != [] && forall i, j :: 0 <= i < j < |ids| ==> ids[i] != ids[j]
    ensures ids[0] !in ids[1..] && forall k :: k in ids <==> k == ids[0] || k in ids[1..]
    ensures forall i, j :: 0 <= i < j < |ids[1..]| ==> ids[1..][i] != ids[1..][j]
  {
    assert ids == [ids[0]] + ids[1..];
  }

  lemma HeadStaysAlone(head: nat, rest: seq<nat>)
    requires head !in rest && forall i, j :: 0 <= i < j < |rest| ==> rest[i] != rest[j]
    ensures forall i, j :: 0 <= i < j < |[head] + rest| ==> ([head] + rest)[i] != ([head] + rest)[j]
  {
    assert forall i :: 0 < i < |[head] + rest| ==> ([head] + rest)[i] == rest[i - 1] && rest[i - 1] in rest;
  }

  lemma UnsubscribeKeeps(b: BusState, id: nat, owed: set<nat>, calling: Option<nat>)
    requires Keeps(b, owed, calling)
    ensures Keeps(Unsubscribed(b, id), owed, calling)
  {
    hide Without, Wanted;
    WithoutOne(b.active, id);
    var r := Unsubscribed(b, id);
    if id in b.active && id < |b.all| {
      forall k | 0 <= k < |r.all| ensures Complete(r, k, k in owed) {
        assert Complete(b, k, k in owed);
        SameWanted(b.log[b.all[k].joined..if k in owed then b.dispatched - 1 else b.dispatched], b.all[k], r.all[k]);
      }
      forall i | 0 <= i < |r.active| ensures r.active[i] < |r.all| {
        assert r.active[i] in r.active;
      }
    }
  }

  // What a subscription wants depends on its types alone.
  lemma {:induction false} SameWanted(entries: seq<Entry>, s: Subscription, t: Subscription)
    requires s.types == t.types
    ensures Wanted(entries, s) == Wanted(entries, t)
  {
    if entries != [] {
      SameWanted(entries[..|entries| - 1], s, t);
    }
  }

  lemma ActKeeps(b: BusState, act: Act, owed: set<nat>, calling: Option<nat>)
    requires Keeps(b, owed, calling) && (calling.Some? ==> calling.value < |b.all|)
    ensures Keeps(Acted(b, act), owed, calling) && Grew(b, Acted(b, act))
  {
    hide Keeps;
    match act
    case Publish(e) => PublishKeeps(b, e, owed, calling);
    case Subscribe(types) => SubscribeKeeps(b, types, owed, calling);
    case Unsubscribe(id) => UnsubscribeKeeps(b, id, owed, calling);
  }

  lemma {:induction false} ActsKeep(b: BusState, acts: seq<Act>, owed: set<nat>, calling: Option<nat>)
    requires Keeps(b, owed, calling) && (calling.Some? ==> calling.value < |b.all|)
    ensures Keeps(ActedAll(b, acts), owed, calling) && Grew(b, ActedAll(b, acts))
  {
    hide Keeps, Acted;
    if acts != [] {
      ActsKeep(b, acts[..|acts| - 1], owed, calling);
      ActKeeps(ActedAll(b, acts[..|acts| - 1]), acts[|acts| - 1], owed, calling);
    }
  }

  // -- dispatching --------------------------------------------------------------------

  // One owed call settles the subscription's account with the publication.
  lemma CallKeeps(b: BusState, id: nat, script: Script, owed: set<nat>)
    requires Keeps(b, owed, None) && id in owed && b.dispatched > 0
    ensures id < |b.all|
    ensures var r := Called(b, id, b.log[b.dispatched - 1].event, script);
      Keeps(r, owed - {id}, None) && Grew(b, r)
  {
    hide Keeps, Counted, Noted, ActedAll, Grew;
    OwedKnown(b, id, owed);
    var e := b.log[b.dispatched - 1].event;
    if !b.all[id].Wants(e) {
      SettleKeeps(b, id, owed);
      GrewSelf(b);
    } else {
      var reaction := script(b.calls);
      RecordKeeps(b, id, owed);
      var called, acted := Noted(b, id, e), ActedAll(Noted(b, id, e), reaction.acts);
      ActsKeep(called, reaction.acts, owed - {id}, Some(id));
      CountKeeps(acted, id, reaction.raises, owed - {id});
      GrewThrice(b, called, acted, Counted(acted, id, reaction.raises));
    }
  }

  lemma OwedKnown(b: BusState, id: nat, owed: set<nat>)
    requires Keeps(b, owed, None) && id in owed
    ensures id < |b.all| && b.dispatched <= |b.log|
  {
  }

  lemma GrewSelf(b: BusState)
    ensures Grew(b, b)
  {
  }

  lemma GrewThrice(a: BusState, b: BusState, c: BusState, d: BusState)
    requires Grew(a, b) && Grew(b, c) && Grew(c, d)
    ensures Grew(a, d)
  {
  }

  lemma OwedSlice(b: BusState, s: Subscription)
    requires s.joined < b.dispatched <= |b.log|
    ensures Wanted(b.log[s.joined..b.dispatched], s) ==
      Wanted(b.log[s.joined..b.dispatched - 1], s)
      + if s.Wants(b.log[b.dispatched - 1].event) then [b.log[b.dispatched - 1].event] else []
  {
    var slice := b.log[s.joined..b.dispatched];
    assert slice[..|slice| - 1] == b.log[s.joined..b.dispatched - 1];
    assert slice[|slice| - 1] == b.log[b.dispatched - 1];
  }

  lemma SettleKeeps(b: BusState, id: nat, owed: set<nat>)
    requires Keeps(b, owed, None) && id in owed && id < |b.all| && b.dispatched > 0
    requires !b.all[id].Wants(b.log[b.dispatched - 1].event)
    ensures Keeps(b, owed - {id}, None)
  {
    hide Wanted, Ascending, Tallied;
    assert Complete(b, id, true);
    OwedSlice(b, b.all[id]);
    forall k | 0 <= k < |b.all| ensures Complete(b, k, k in owed - {id}) {
      assert Complete(b, k, k in owed);
    }
  }

  lemma RecordKeeps(b: BusState, id: nat, owed: set<nat>)
    requires Keeps(b, owed, None) && id in owed && id < |b.all| && b.dispatched > 0
    requires b.all[id].Wants(b.log[b.dispatched - 1].event)
    ensures var r := Noted(b, id, b.log[b.dispatched - 1].event);
      Keeps(r, owed - {id}, Some(id)) && Grew(b, r)
  {
    hide Wanted;
    var r := Noted(b, id, b.log[b.dispatched - 1].event);
    assert Complete(b, id, true);
    OwedSlice(b, b.all[id]);
    SameWanted(b.log[b.all[id].joined..b.dispatched], b.all[id], r.all[id]);
    forall k | 0 <= k < |r.all| ensures Complete(r, k, k in owed - {id}) {
      assert Complete(b, k, k in owed);
    }
  }

  lemma CountKeeps(b: BusState, id: nat, raised: bool, owed: set<nat>)
    requires Keeps(b, owed, Some(id)) && id < |b.all|
    ensures Keeps(Counted(b, id, raised), owed, None) && Grew(b, Counted(b, id, raised))
  {
    hide Wanted;
    var r := Counted(b, id, raised);
    forall k | 0 <= k < |r.all| ensures Complete(r, k, k in owed) {
      assert Complete(b, k, k in owed);
      SameWanted(b.log[b.all[k].joined..if k in owed then (if b.all[k].left.Some? then b.all[k].left.value else b.dispatched) - 1
        else if b.all[k].left.Some? then b.all[k].left.value else b.dispatched], b.all[k], r.all[k]);
    }
  }

  function IdsOf(ids: seq<nat>): (r: set<nat>) {
    set id | id in ids
  }

  // Calling the subscriptions of a snapshot in turn settles them in turn.
  lemma {:induction false} DeliveryKeeps(b: BusState, ids: seq<nat>, n: nat, script: Script)
    requires Keeps(b, IdsOf(ids), None) && n <= |ids| && b.dispatched > 0
    requires forall i, j :: 0 <= i < j < |ids| ==> ids[i] != ids[j]
    requires forall i :: 0 <= i < |ids| ==> ids[i] < |b.all|
    ensures b.dispatched <= |b.log|
    ensures var r := Delivered(b, ids[..n], b.log[b.dispatched - 1].event, script);
      Keeps(r, IdsOf(ids[n..]), None) && Grew(b, r)
  {
    hide Keeps, Called;
    InLog(b, IdsOf(ids));
    if n == 0 {
      assert ids[..0] == [] && ids[0..] == ids;
    } else {
      DeliveryKeeps(b, ids, n - 1, script);
      assert ids[..n][..n - 1] == ids[..n - 1];
      assert ids[n - 1..] == [ids[n - 1]] + ids[n..];
      assert ids[n - 1] !in ids[n..];
      assert IdsOf(ids[n - 1..]) - {ids[n - 1]} == IdsOf(ids[n..]);
      CallKeeps(Delivered(b, ids[..n - 1], b.log[b.dispatched - 1].event, script), ids[n - 1], script, IdsOf(ids[n - 1..]));
    }
  }

  lemma InLog(b: BusState, owed: set<nat>)
    requires Keeps(b, owed, None)
    ensures b.dispatched <= |b.log|
  {
  }

  lemma PopKeeps(b: BusState)
    requires Keeps(b, {}, None) && b.dispatched < |b.log|
    ensures Numbered(b) && forall i, j :: 0 <= i < j < |b.active| ==> b.active[i] != b.active[j]
    ensures Keeps(b.(dispatched := b.dispatched + 1), IdsOf(b.active), None)
  {
    hide Wanted;
    var r := b.(dispatched := b.dispatched + 1);
    forall id | 0 <= id < |r.all| ensures Complete(r, id, id in IdsOf(b.active)) {
      SettledAt(b, id, {});
    }
  }

  lemma SettledAt(b: BusState, id: nat, owed: set<nat>)
    requires Keeps(b, owed, None) && id < |b.all| && id !in owed
    ensures Complete(b, id, false)
    ensures b.all[id].delivered + b.all[id].errors == |b.all[id].calls|
  {
    assert Complete(b, id, id in owed);
  }

  lemma DispatchKeeps(b: BusState, script: Script)
    requires Keeps(b, {}, None) && b.dispatched < |b.log|
    ensures Numbered(b)
    ensures var r := DispatchedOne(b, script);
      Keeps(r, {}, None) && b.log <= r.log && r.dispatched == b.dispatched + 1
  {
    hide Keeps, Delivered;
    PopKeeps(b);
    DeliveryKeeps(b.(dispatched := b.dispatched + 1), b.active, |b.active|, script);
    assert b.active[..|b.active|] == b.active && IdsOf(b.active[|b.active|..]) == {};
  }

  // -- runs and draining ----------------------------------------------------------------

  // Dispatches until the queue is empty; raises once more than `budget`
  // publications have been dispatched.
  datatype DrainResult = DrainResult(bus: BusState, raised: bool)

  ghost function Drained(b: BusState, script: Script, budget: nat): (r: DrainResult)
    decreases budget
  {
    if b.dispatched >= |b.log| || !Numbered(b) then DrainResult(b, false)
    else
      var next := DispatchedOne(b, script);
      if budget == 0 then DrainResult(next, true) else Drained(next, script, budget - 1)
  }

  // A drain without a budget would dispatch at least `n` publications.
  ghost predicate Dispatches(b: BusState, script: Script, n: nat)
    decreases n
  {
    n == 0 || (b.dispatched < |b.log| && Numbered(b) && Dispatches(DispatchedOne(b, script), script, n - 1))
  }

  // A drain raises exactly when an unbounded one would dispatch more than the
  // budget, and has then dispatched one publication more than that; otherwise
  // it has emptied the queue. It raises on a queue it has just emptied exactly
  // when that one publication was the last.
  lemma {:induction false} DrainStops(b: BusState, script: Script, budget: nat)
    requires Keeps(b, {}, None)
    ensures var r := Drained(b, script, budget);
      && Keeps(r.bus, {}, None) && b.log <= r.bus.log
      && (r.raised <==> Dispatches(b, script, budget + 1))
      && (r.raised ==> r.bus.dispatched == b.dispatched + budget + 1)
      && (!r.raised ==> r.bus.dispatched == |r.bus.log| <= b.dispatched + budget)
      && (r.raised && r.bus.dispatched == |r.bus.log| <==>
            Dispatches(b, script, budget + 1) && !Dispatches(b, script, budget + 2))
    decreases budget
  {
    hide Keeps, DispatchedOne, Numbered;
    InLog(b, {});
    KeepsNumbered(b);
    if b.dispatched < |b.log| {
      DispatchKeeps(b, script);
      var next := DispatchedOne(b, script);
      KeepsNumbered(next);
      InLog(next, {});
      if budget > 0 {
        DrainStops(next, script, budget - 1);
      } else {
        assert Dispatches(b, script, 1) && (Dispatches(b, script, 2) <==> next.dispatched < |next.log|);
      }
    }
  }

  // No handler publishes anything.
  ghost predicate Silent(script: Script) {
    forall n: nat :: PublishesNothing(script(n))
  }

  predicate PublishesNothing(r: Reaction) {
    forall act :: act in r.acts ==> !act.Publish?
  }

  lemma {:induction false} SilentActs(b: BusState, acts: seq<Act>)
    requires forall act :: act in acts ==> !act.Publish?
    ensures ActedAll(b, acts).log == b.log
  {
    if acts != [] {
      SilentActs(b, acts[..|acts| - 1]);
      assert acts[|acts| - 1] in acts;
    }
  }

  lemma {:induction false} SilentDelivery(b: BusState, ids: seq<nat>, e: Event, script: Script)
    requires Silent(script) && forall i :: 0 <= i < |ids| ==> ids[i] < |b.all|
    ensures Delivered(b, ids, e, script).log == b.log
  {
    hide ActedAll;
    if ids != [] {
      SilentDelivery(b, ids[..|ids| - 1], e, script);
      var before := Delivered(b, ids[..|ids| - 1], e, script);
      assert PublishesNothing(script(before.calls));
      SilentActs(Noted(before, ids[|ids| - 1], e), script(before.calls).acts);
    }
  }

  // With handlers that publish nothing a drain raises exactly when more is
  // queued than its budget.
  lemma SilentDrainRaises(b: BusState, script: Script, budget: nat)
    requires Keeps(b, {}, None) && Silent(script)
    ensures Drained(b, script, budget).raised <==> |b.log| - b.dispatched > budget
  {
    hide Keeps, Drained, Silent, Dispatches;
    DrainStops(b, script, budget);
    SilentDispatches(b, script, budget + 1);
  }

  lemma {:induction false} SilentDispatches(b: BusState, script: Script, n: nat)
    requires Keeps(b, {}, None) && Silent(script)
    ensures Dispatches(b, script, n) <==> |b.log| - b.dispatched >= n
    decreases n
  {
    hide Keeps, Silent, Numbered, Delivered;
    InLog(b, {});
    KeepsNumbered(b);
    if n > 0 && b.dispatched < |b.log| {
      DispatchKeeps(b, script);
      NumberedIndices(b);
      SilentDelivery(b.(dispatched := b.dispatched + 1), b.active, b.log[b.dispatched].event, script);
      SilentDispatches(DispatchedOne(b, script), script, n - 1);
    }
  }

  lemma NumberedIndices(b: BusState)
    requires Numbered(b)
    ensures forall i :: 0 <= i < |b.active| ==> b.active[i] < |b.all|
  {
  }

  // One event queued, nobody listening and a budget of none: the drain empties
  // the queue and raises.
  lemma DrainRaisesOnEmptiedQueue(script: Script)
    ensures var b := Published(NEW_BUS, Event("e1", "TICK", 0, None, true));
      var r := Drained(b, script, 0);
      r.raised && r.bus.dispatched == |r.bus.log| == 1
  {
    var b := Published(NEW_BUS, Event("e1", "TICK", 0, None, true));
    assert DispatchedOne(b, script) == b.(dispatched := 1);
  }

  lemma KeepsNumbered(b: BusState)
    requires Keeps(b, {}, None)
    ensures Numbered(b)
  {
  }

  datatype Step = Do(act: Act) | Dispatch | Drain(budget: nat)

  ghost function Stepped(b: BusState, step: Step, script: Script): (r: BusState) {
    match step
    case Do(act) => Acted(b, act)
    case Dispatch => if b.dispatched < |b.log| && Numbered(b) then DispatchedOne(b, script) else b
    case Drain(budget) => Drained(b, script, budget).bus
  }

  ghost function RunBus(steps: seq<Step>, script: Script): (b: BusState) {
    if steps == [] then NEW_BUS else Stepped(RunBus(steps[..|steps| - 1], script), steps[|steps| - 1], script)
  }

  lemma {:induction false} RunKeeps(steps: seq<Step>, script: Script)
    ensures Keeps(RunBus(steps, script), {}, None)
  {
    hide Keeps, Acted, DispatchedOne;
    if steps == [] {
      NewBusKeeps();
    } else {
      RunKeeps(steps[..|steps| - 1], script);
      var b := RunBus(steps[..|steps| - 1], script);
      match steps[|steps| - 1]
      case Do(act) => ActKeeps(b, act, {}, None);
      case Dispatch => if b.dispatched < |b.log| { DispatchKeeps(b, script); }
      case Drain(budget) => DrainStops(b, script, budget);
    }
  }

  lemma NewBusKeeps()
    ensures Keeps(NEW_BUS, {}, None)
  {
  }

  // In every run, whatever handlers publish, subscribe, drop or raise: each
  // subscription has been called on exactly its type-filtered slice of the
  // publication log, from where it joined to where it left, in order and once
  // each; and the bus's own sequence numbers increase along the log.
  lemma EverySubscriberSeesItsSlice(steps: seq<Step>, script: Script, id: nat)
    requires id < |RunBus(steps, script).all|
    ensures var b := RunBus(steps, script);
      var s := b.all[id];
      var until := if s.left.Some? then s.left.value else b.dispatched;
      && s.joined <= until <= b.dispatched <= |b.log|
      && s.calls == Wanted(b.log[s.joined..until], s)
      && s.delivered + s.errors == |s.calls|
      && (id in b.active <==> s.left.None?)
    ensures Ascending(RunBus(steps, script))
  {
    hide RunBus, Wanted;
    RunKeeps(steps, script);
    SettledAt(RunBus(steps, script), id, {});
  }

  // Numbered by the bus under a clock that never goes back, the publications
  // are already in replay order.
  lemma LogIsInReplayOrder(steps: seq<Step>, script: Script)
    requires var log := RunBus(steps, script).log;
      forall i :: 0 <= i < |log| ==> log[i].stamped && (i > 0 ==> log[i - 1].event.ts <= log[i].event.ts)
    ensures var log := RunBus(steps, script).log;
      Ordered(seq(|log|, i requires 0 <= i < |log| => log[i].event))
  {
    hide RunBus;
    RunKeeps(steps, script);
    var b := RunBus(steps, script);
    KeepsAscending(b);
    forall i, j | 0 <= i < j < |b.log| ensures b.log[i].event.ts <= b.log[j].event.ts {
      TimesGrow(b.log, i, j);
    }
  }

  lemma KeepsAscending(b: BusState)
    requires Keeps(b, {}, None)
    ensures Ascending(b)
  {
  }

  lemma TimesGrow(log: seq<Entry>, i: nat, j: nat)
    requires i <= j < |log| && forall k :: 0 < k < |log| ==> log[k - 1].event.ts <= log[k].event.ts
    ensures log[i].event.ts <= log[j].event.ts
    decreases j - i
  {
    if i < j {
      TimesGrow(log, i, j - 1);
    }
  }

  // -- failures --------------------------------------------------------------------------

  function ErrorsIn(all: seq<Subscription>): (n: nat) {
    if all == [] then 0 else ErrorsIn(all[..|all| - 1]) + all[|all| - 1].errors
  }

  // How many of the first `n` handler calls raised.
  function RaisesIn(script: Script, n: nat): (k: nat) {
    if n == 0 then 0 else RaisesIn(script, n - 1) + if script(n - 1).raises then 1 else 0
  }

  // Subscriptions are called in the order they joined.
  ghost predicate InJoiningOrder(b: BusState) {
    && (forall i, j :: 0 <= i < j < |b.active| ==> b.active[i] < b.active[j])
    && forall i :: 0 <= i < |b.active| ==> b.active[i] < |b.all|
  }

  ghost predicate FailuresCounted(b: BusState, script: Script) {
    ErrorsIn(b.all) == RaisesIn(script, b.calls) && InJoiningOrder(b)
  }

  lemma {:induction false} WithoutAscends(ids: seq<nat>, id: nat)
    requires forall i, j :: 0 <= i < j < |ids| ==> ids[i] < ids[j]
    ensures var r := Without(ids, id); forall i, j :: 0 <= i < j < |r| ==> r[i] < r[j]
  {
    if ids != [] && ids[0] != id {
      var rest := Without(ids[1..], id);
      WithoutAscends(ids[1..], id);
      WithoutOne(ids[1..], id);
      forall i, j | 0 <= i < j < |[ids[0]] + rest| ensures ([ids[0]] + rest)[i] < ([ids[0]] + rest)[j] {
        assert rest[j - 1] in rest;
        SomewhereBehind(ids, rest[j - 1]);
        assert i > 0 ==> rest[i - 1] < rest[j - 1];
      }
    }
  }

  lemma BoundedBy(ids: seq<nat>, rest: seq<nat>, bound: nat)
    requires (forall i :: 0 <= i < |ids| ==> ids[i] < bound) && forall k :: k in rest ==> k in ids
    ensures forall i :: 0 <= i < |rest| ==> rest[i] < bound
  {
    forall i | 0 <= i < |rest| ensures rest[i] < bound {
      assert rest[i] in rest;
    }
  }

  lemma SomewhereBehind(ids: seq<nat>, k: nat)
    requires ids != [] && forall i, j :: 0 <= i < j < |ids| ==> ids[i] < ids[j]
    requires k in ids[1..]
    ensures ids[0] < k
  {
    var i :| 0 <= i < |ids| - 1 && ids[1..][i] == k;
    assert ids[i + 1] == k;
  }

  lemma {:induction false} ActsKeepOrder(b: BusState, acts: seq<Act>)
    requires InJoiningOrder(b)
    ensures InJoiningOrder(ActedAll(b, acts))
  {
    hide Without, Published, InJoiningOrder;
    if acts != [] {
      ActsKeepOrder(b, acts[..|acts| - 1]);
      ActKeepsOrder(ActedAll(b, acts[..|acts| - 1]), acts[|acts| - 1]);
    }
  }

  lemma ActKeepsOrder(b: BusState, act: Act)
    requires InJoiningOrder(b)
    ensures InJoiningOrder(Acted(b, act))
  {
    hide Without;
    match act
    case Publish(e) =>
    case Subscribe(types) =>
    case Unsubscribe(id) =>
      WithoutAscends(b.active, id);
      WithoutOne(b.active, id);
      BoundedBy(b.active, Without(b.active, id), |b.all|);
  }

  lemma {:induction false} ErrorsUpdate(all: seq<Subscription>, id: nat, s: Subscription)
    requires id < |all|
    ensures ErrorsIn(all[id := s]) == ErrorsIn(all) - all[id].errors + s.errors
  {
    var last := |all| - 1;
    if id < last {
      ErrorsUpdate(all[..last], id, s);
      assert all[id := s][..last] == all[..last][id := s];
    } else {
      assert all[id := s][..last] == all[..last];
    }
  }

  lemma {:induction false} ActsRaiseNothing(b: BusState, acts: seq<Act>)
    ensures ErrorsIn(ActedAll(b, acts).all) == ErrorsIn(b.all) && ActedAll(b, acts).calls == b.calls
  {
    hide Without, Published;
    if acts != [] {
      var before := ActedAll(b, acts[..|acts| - 1]);
      ActsRaiseNothing(b, acts[..|acts| - 1]);
      match acts[|acts| - 1]
      case Publish(e) => PublishedLog(before, e); PublishCallsNobody(before, e);
      case Subscribe(types) =>
        var s := Subscription(types, before.dispatched, None, [], 0, 0);
        assert (before.all + [s])[..|before.all|] == before.all;
      case Unsubscribe(id) =>
        if id in before.active && id < |before.all| {
          ErrorsUpdate(before.all, id, before.all[id].(left := Some(before.dispatched)));
        }
    }
  }

  lemma PublishCallsNobody(b: BusState, e: Event)
    ensures Published(b, e).calls == b.calls
  {
  }

  lemma CallCounted(b: BusState, id: nat, e: Event, script: Script)
    requires id < |b.all| && FailuresCounted(b, script)
    ensures FailuresCounted(Called(b, id, e, script), script)
  {
    hide ActedAll, ErrorsIn;
    if b.all[id].Wants(e) {
      var noted, reaction := Noted(b, id, e), script(b.calls);
      ErrorsUpdate(b.all, id, noted.all[id]);
      ActsRaiseNothing(noted, reaction.acts);
      ActsKeepOrder(noted, reaction.acts);
      var acted := ActedAll(noted, reaction.acts);
      ErrorsUpdate(acted.all, id, Counted(acted, id, reaction.raises).all[id]);
    }
  }

  lemma {:induction false} DeliveryCounted(b: BusState, ids: seq<nat>, e: Event, script: Script)
    requires (forall i :: 0 <= i < |ids| ==> ids[i] < |b.all|) && FailuresCounted(b, script)
    ensures FailuresCounted(Delivered(b, ids, e, script), script)
  {
    hide Called, FailuresCounted;
    if ids != [] {
      DeliveryCounted(b, ids[..|ids| - 1], e, script);
      CallCounted(Delivered(b, ids[..|ids| - 1], e, script), ids[|ids| - 1], e, script);
    }
  }

  lemma {:induction false} DrainCounted(b: BusState, script: Script, budget: nat)
    requires FailuresCounted(b, script)
    ensures FailuresCounted(Drained(b, script, budget).bus, script)
    decreases budget
  {
    hide Delivered, ErrorsIn;
    if b.dispatched < |b.log| && Numbered(b) {
      DeliveryCounted(b.(dispatched := b.dispatched + 1), b.active, b.log[b.dispatched].event, script);
      if budget > 0 {
        DrainCounted(DispatchedOne(b, script), script, budget - 1);
      }
    }
  }

  // Over every run the error counters of the subscriptions, those that left
  // included, add up to the calls that raised: no failure stops the bus and none
  // goes uncounted; and the active subscriptions stand in the order they joined.
  lemma {:induction false} EveryFailureCounted(steps: seq<Step>, script: Script)
    ensures FailuresCounted(RunBus(steps, script), script)
  {
    hide Acted, Delivered, ErrorsIn, Drained;
    if steps == [] {
      NothingFailed(script);
    } else {
      EveryFailureCounted(steps[..|steps| - 1], script);
      var b := RunBus(steps[..|steps| - 1], script);
      match steps[|steps| - 1]
      case Do(act) => OneAct(b, act); ActsRaiseNothing(b, [act]); ActKeepsOrder(b, act);
      case Dispatch =>
        if b.dispatched < |b.log| && Numbered(b) {
          DeliveryCounted(b.(dispatched := b.dispatched + 1), b.active, b.log[b.dispatched].event, script);
        }
      case Drain(budget) => DrainCounted(b, script, budget);
    }
  }

  // How many of the first `n` subscriptions want the event.
  function WantersAmong(b: BusState, ids: seq<nat>, n: nat, e: Event): (k: nat)
    requires n <= |ids| && forall i :: 0 <= i < |ids| ==> ids[i] < |b.all|
  {
    if n == 0 then 0 else WantersAmong(b, ids, n - 1, e) + if b.all[ids[n - 1]].Wants(e) then 1 else 0
  }

  // One publication is offered to the subscriptions in their order: with
  // handlers that do nothing, the handler of the j-th is called next after those
  // of the earlier ones that want it, and its failure is its own.
  lemma {:induction false} CalledInTurn(b: BusState, ids: seq<nat>, e: Event, script: Script, n: nat, j: nat)
    requires n <= |ids| && j < |ids| && forall i :: 0 <= i < |ids| ==> ids[i] < |b.all|
    requires forall i, j :: 0 <= i < j < |ids| ==> ids[i] != ids[j]
    requires forall k: nat :: DoesNothing(script(k))
    ensures var r := Delivered(b, ids[..n], e, script);
      && |r.all| == |b.all| && r.calls == b.calls + WantersAmong(b, ids, n, e)
      && r.all[ids[j]].types == b.all[ids[j]].types
      && r.all[ids[j]].errors == b.all[ids[j]].errors + (if j < n && Fails(b, ids, j, e, script) then 1 else 0)
  {
    hide Called, Subscription.Wants, DoesNothing, Delivered, Fails, WantersAmong;
    if n == 0 {
      NobodyCalled(b, ids, e, script);
    } else {
      CalledInTurn(b, ids, e, script, n - 1, j);
      CalledInTurn(b, ids, e, script, n - 1, n - 1);
      DeliveredOneMore(b, ids, e, script, n);
      OneMoreWanter(b, ids, e, n);
      FailsMeans(b, ids, n - 1, e, script);
      var before := Delivered(b, ids[..n - 1], e, script);
      CalledQuietly(before, ids[n - 1], ids[j], e, script);
      WantsTheSame(before.all[ids[n - 1]], b.all[ids[n - 1]], e);
      hide *;
    }
  }

  lemma NobodyCalled(b: BusState, ids: seq<nat>, e: Event, script: Script)
    requires forall i :: 0 <= i < |ids| ==> ids[i] < |b.all|
    ensures Delivered(b, ids[..0], e, script) == b && WantersAmong(b, ids, 0, e) == 0
  {
  }

  lemma DeliveredOneMore(b: BusState, ids: seq<nat>, e: Event, script: Script, n: nat)
    requires 0 < n <= |ids| && forall i :: 0 <= i < |ids| ==> ids[i] < |b.all|
    ensures Delivered(b, ids[..n], e, script) == Called(Delivered(b, ids[..n - 1], e, script), ids[n - 1], e, script)
  {
    hide Delivered, Called;
    DeliveredLast(b, ids[..n], e, script);
    assert ids[..n][..n - 1] == ids[..n - 1];
  }

  lemma OneMoreWanter(b: BusState, ids: seq<nat>, e: Event, n: nat)
    requires 0 < n <= |ids| && forall i :: 0 <= i < |ids| ==> ids[i] < |b.all|
    ensures WantersAmong(b, ids, n, e) == WantersAmong(b, ids, n - 1, e) + if b.all[ids[n - 1]].Wants(e) then 1 else 0
  {
    hide Subscription.Wants;
  }

  lemma FailsMeans(b: BusState, ids: seq<nat>, j: nat, e: Event, script: Script)
    requires j < |ids| && forall i :: 0 <= i < |ids| ==> ids[i] < |b.all|
    ensures Fails(b, ids, j, e, script) <==>
      b.all[ids[j]].Wants(e) && script(b.calls + WantersAmong(b, ids, j, e)).raises
  {
    hide WantersAmong, Subscription.Wants;
  }

  lemma DeliveredLast(b: BusState, ids: seq<nat>, e: Event, script: Script)
    requires ids != [] && forall i :: 0 <= i < |ids| ==> ids[i] < |b.all|
    ensures Delivered(b, ids, e, script) == Called(Delivered(b, ids[..|ids| - 1], e, script), ids[|ids| - 1], e, script)
  {
    hide Called;
  }

  lemma WantsTheSame(s: Subscription, t: Subscription, e: Event)
    requires s.types == t.types
    ensures s.Wants(e) == t.Wants(e)
  {
  }

  lemma CalledQuietly(b: BusState, id: nat, other: nat, e: Event, script: Script)
    requires id < |b.all| && other < |b.all| && DoesNothing(script(b.calls))
    ensures var r, wants := Called(b, id, e, script), b.all[id].Wants(e);
      && |r.all| == |b.all| && r.calls == b.calls + (if wants then 1 else 0)
      && (other != id ==> r.all[other] == b.all[other])
      && r.all[id].types == b.all[id].types
      && r.all[id].errors == b.all[id].errors + (if wants && script(b.calls).raises then 1 else 0)
  {
    hide Subscription.Wants;
  }

  predicate DoesNothing(r: Reaction) {
    r.acts == []
  }

  // The j-th subscription wants the event and its call, in its turn, raises.
  predicate Fails(b: BusState, ids: seq<nat>, j: nat, e: Event, script: Script)
    requires j < |ids| && forall i :: 0 <= i < |ids| ==> ids[i] < |b.all|
  {
    b.all[ids[j]].Wants(e) && script(b.calls + WantersAmong(b, ids, j, e)).raises
  }

  lemma OneAct(b: BusState, act: Act)
    ensures ActedAll(b, [act]) == Acted(b, act)
  {
    assert [act][..0] == [];
  }

  lemma NothingFailed(script: Script)
    ensures FailuresCounted(NEW_BUS, script)
  {
  }

  // -- the class --------------------------------------------------------------------------

  // The subscription table also records every call; the source keeps only the
  // counters.
  class InMemoryEventBus {
    var queue: seq<Event>
    var subs: seq<nat>
    var table: seq<Subscription>
    var calls: nat
    var nextSequence: nat
    ghost var published: seq<Entry>
    var dispatched: nat

    ghost function View(): BusState
      reads this
    {
      BusState(published, dispatched, subs, table, calls, nextSequence)
    }

    // The queue is the part of the publication log not yet dispatched.
    ghost predicate Linked()
      reads this
    {
      && |queue| + dispatched == |published|
      && forall i :: 0 <= i < |queue| ==> queue[i] == published[dispatched + i].event
    }

    ghost predicate Valid()
      reads this
    {
      Linked() && Keeps(View(), {}, None)
    }

    constructor ()
      ensures Valid() && View() == NEW_BUS
    {
      queue, subs, table, calls, nextSequence := [], [], [], 0, 1;
      published, dispatched := [], 0;
      NewBusKeeps();
    }

    method Publish(event: Event)
      requires Linked()
      modifies this
      ensures Linked() && View() == Published(old(View()), event)
    {
      published := Published(View(), event).log;
      var numbered := event;
      if event.sequence.None? {
        numbered := event.(sequence := Some(nextSequence));
        nextSequence := nextSequence + 1;
      }
      queue := queue + [numbered];
    }

    method Subscribe(types: Option<set<string>>) returns (id: nat)
      requires Linked()
      modifies this
      ensures Linked() && id == |old(table)| && View() == Subscribed(old(View()), types)
    {
      id := |table|;
      table := table + [Subscription(types, dispatched, None, [], 0, 0)];
      subs := subs + [id];
    }

    method Unsubscribe(id: nat)
      requires Linked()
      modifies this`subs, this`table
      ensures Linked() && View() == Unsubscribed(old(View()), id)
    {
      if id in subs && id < |table| {
        subs := Without(subs, id);
        table := table[id := table[id].(left := Some(dispatched))];
      }
    }

    method Perform(acts: seq<Act>)
      requires Linked()
      modifies this
      ensures Linked() && View() == ActedAll(old(View()), acts)
    {
      hide Published, Subscribed, Unsubscribed;
      for i := 0 to |acts|
        invariant Linked() && View() == ActedAll(old(View()), acts[..i])
      {
        assert acts[..i + 1][..i] == acts[..i];
        match acts[i]
        case Publish(e) => Publish(e);
        case Subscribe(types) => var id := Subscribe(types);
        case Unsubscribe(id) => Unsubscribe(id);
      }
      assert acts[..|acts|] == acts;
    }

    // Calls one handler; a handler that raises is counted and passed over.
    method Call(id: nat, event: Event, script: Script)
      requires Linked() && id < |table|
      modifies this
      ensures Linked() && View() == Called(old(View()), id, event, script)
    {
      if !table[id].Wants(event) {
        return;
      }
      var reaction := script(calls);
      table := table[id := table[id].(calls := table[id].calls + [event])];
      calls := calls + 1;
      Perform(reaction.acts);
      var s := table[id];
      table := table[id := if reaction.raises then s.(errors := s.errors + 1) else s.(delivered := s.delivered + 1)];
    }

    // Pops one event and calls every subscription registered at that moment.
    method DispatchOne(script: Script)
      requires Valid() && queue != []
      modifies this
      ensures old(View()).dispatched < |old(View()).log| && Numbered(old(View()))
      ensures Valid() && View() == DispatchedOne(old(View()), script)
    {
      hide Called, Keeps;
      InLog(View(), {});
      KeepsNumbered(View());
      DispatchKeeps(View(), script);
      var event, snapshot := queue[0], subs;
      queue, dispatched := queue[1..], dispatched + 1;
      ghost var popped := View();
      for i := 0 to |snapshot|
        invariant Linked() && |table| >= |popped.all|
        invariant View() == Delivered(popped, snapshot[..i], event, script)
      {
        assert snapshot[..i + 1][..i] == snapshot[..i];
        Call(snapshot[i], event, script);
      }
      assert snapshot[..|snapshot|] == snapshot;
    }

    // Dispatches until the queue is empty, cascades included.
    method Drain(script: Script, maxCycles: nat) returns (raised: bool)
      requires Valid()
      modifies this
      ensures Valid() && DrainResult(View(), raised) == Drained(old(View()), script, maxCycles)
    {
      hide Keeps, DispatchedOne;
      ghost var start := View();
      KeepsNumbered(View());
      var cycles := 0;
      while queue != []
        invariant Valid() && cycles <= maxCycles
        invariant Drained(start, script, maxCycles) == Drained(View(), script, maxCycles - cycles)
        decreases maxCycles - cycles
      {
        KeepsNumbered(View());
        DispatchOne(script);
        cycles := cycles + 1;
        if cycles > maxCycles {
          return true;
        }
      }
      return false;
    }
  }
}
