// Duplicate detection over a bounded window of recent fill ids, shared by the
// account and the order manager.
module Dedupe {
  import opened Execution

  // The most recent `limit` ids.
  function Window(order: seq<string>, limit: nat): (r: seq<string>)
    ensures |r| <= limit
    ensures forall id :: id in r ==> id in order
  {
    if |order| <= limit then order else order[|order| - limit..]
  }

  ghost predicate Distinct(ids: seq<string>) {
    forall i, j :: 0 <= i < j < |ids| ==> ids[i] != ids[j]
  }

  function IdSeq(fills: seq<Fill>): (r: seq<string>)
    ensures |r| == |fills|
    ensures forall i :: 0 <= i < |fills| ==> r[i] == fills[i].fillId
  {
    seq(|fills|, i requires 0 <= i < |fills| => fills[i].fillId)
  }

  // Trimming after every arrival keeps exactly the window of all arrivals.
  lemma WindowSnoc(order: seq<string>, limit: nat, id: string)
    ensures Window(Window(order, limit) + [id], limit) == Window(order + [id], limit)
  {
  }

  // Forgets the oldest ids until the window fits.
  method Trim(applied: set<string>, order: seq<string>, limit: nat)
    returns (applied': set<string>, order': seq<string>)
    requires applied == set id | id in order
    requires Distinct(order)
    ensures order' == Window(order, limit)
    ensures applied' == set id | id in order'
  {
    applied', order' := applied, order;
    var excess := if |order| > limit then |order| - limit else 0;
    for k := 0 to excess
      invariant order' == order[k..]
      invariant applied' == set id | id in order'
    {
      ForgetOldest(order', order, k);
      applied', order' := applied' - {order'[0]}, order'[1..];
    }
  }

  lemma ForgetOldest(rest: seq<string>, order: seq<string>, k: nat)
    requires k < |order| && rest == order[k..] && Distinct(order)
    ensures rest[1..] == order[k + 1..]
    ensures (set id | id in rest) - {rest[0]} == set id | id in rest[1..]
  {
    assert forall i :: 0 < i < |rest| ==> rest[i] != rest[0];
    assert rest == [rest[0]] + rest[1..];
  }

  // -- bounded memory against unbounded memory ------------------------------

  // The fills a consumer accepts that remembers its last `limit` accepted ids.
  function Accepted(stream: seq<Fill>, limit: nat): (r: seq<Fill>) {
    if stream == [] then []
    else
      var before := Accepted(stream[..|stream| - 1], limit);
      var f := stream[|stream| - 1];
      if f.fillId in Window(IdSeq(before), limit) then before else before + [f]
  }

  // The fills a consumer accepts that remembers every id.
  function AcceptedOnce(stream: seq<Fill>): (r: seq<Fill>)
    ensures DistinctIds(r)
  {
    if stream == [] then []
    else
      var before := AcceptedOnce(stream[..|stream| - 1]);
      var f := stream[|stream| - 1];
      if f.fillId in IdSeq(before) then before
      else
        assert forall i :: 0 <= i < |before| ==> before[i].fillId == IdSeq(before)[i];
        before + [f]
  }

  // Every redelivery comes within `limit` accepted fills of its original.
  ghost predicate RedeliveredInTime(stream: seq<Fill>, limit: nat) {
    forall i :: 0 <= i < |stream| ==> InTime(stream, i, limit)
  }

  ghost predicate InTime(stream: seq<Fill>, i: nat, limit: nat)
    requires i < |stream|
  {
    var ids := IdSeq(AcceptedOnce(stream[..i]));
    stream[i].fillId in ids ==> stream[i].fillId in Window(ids, limit)
  }

  // A bounded window accepts what an unbounded memory accepts exactly when
  // every redelivery arrives in time.
  lemma {:induction false} BoundedMemoryRefines(stream: seq<Fill>, limit: nat)
    ensures Accepted(stream, limit) == AcceptedOnce(stream) <==> RedeliveredInTime(stream, limit)
  {
    if RedeliveredInTime(stream, limit) {
      InTimeAccepted(stream, limit);
    } else {
      LateDuplicates(stream, limit);
    }
  }

  lemma {:induction false} InTimeAccepted(stream: seq<Fill>, limit: nat)
    requires RedeliveredInTime(stream, limit)
    ensures Accepted(stream, limit) == AcceptedOnce(stream)
  {
    if stream != [] {
      var before := stream[..|stream| - 1];
      forall i | 0 <= i < |before| ensures InTime(before, i, limit) {
        assert InTime(stream, i, limit);
        assert before[..i] == stream[..i];
      }
      InTimeAccepted(before, limit);
      assert InTime(stream, |stream| - 1, limit);
    }
  }

  // A late redelivery is applied twice, and stays applied twice.
  lemma {:induction false} LateDuplicates(stream: seq<Fill>, limit: nat)
    requires !RedeliveredInTime(stream, limit)
    ensures !DistinctIds(Accepted(stream, limit))
  {
    var before := stream[..|stream| - 1];
    if RedeliveredInTime(before, limit) {
      TheLastIsLate(stream, limit);
      InTimeAccepted(before, limit);
      LateLast(stream, limit);
    } else {
      LateDuplicates(before, limit);
      DuplicatesStay(stream, limit);
    }
  }

  lemma TheLastIsLate(stream: seq<Fill>, limit: nat)
    requires !RedeliveredInTime(stream, limit)
    requires stream != [] && RedeliveredInTime(stream[..|stream| - 1], limit)
    ensures !InTime(stream, |stream| - 1, limit)
  {
    hide AcceptedOnce, Window;
    var before := stream[..|stream| - 1];
    var i :| 0 <= i < |stream| && !InTime(stream, i, limit);
    if i < |before| {
      assert before[..i] == stream[..i];
      assert InTime(before, i, limit);
    }
  }

  lemma DuplicatesStay(stream: seq<Fill>, limit: nat)
    requires stream != [] && !DistinctIds(Accepted(stream[..|stream| - 1], limit))
    ensures !DistinctIds(Accepted(stream, limit))
  {
    var taken, all := Accepted(stream[..|stream| - 1], limit), Accepted(stream, limit);
    var j, k :| 0 <= j < k < |taken| && taken[j].fillId == taken[k].fillId;
    assert all[j] == taken[j] && all[k] == taken[k];
  }

  lemma LateLast(stream: seq<Fill>, limit: nat)
    requires stream != [] && !InTime(stream, |stream| - 1, limit)
    requires Accepted(stream[..|stream| - 1], limit) == AcceptedOnce(stream[..|stream| - 1])
    ensures !DistinctIds(Accepted(stream, limit))
  {
    var last := |stream| - 1;
    var taken, all := AcceptedOnce(stream[..last]), Accepted(stream, limit);
    var k :| 0 <= k < |taken| && IdSeq(taken)[k] == stream[last].fillId;
    assert all == taken + [stream[last]];
    assert all[k].fillId == all[|taken|].fillId;
  }
}
