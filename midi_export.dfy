/**
 * The standalone session counter of midi_export.py: it scans the stored
 * rows in timestamp order, compares each row with the one before it (the
 * first row with the time the script started) and numbers from 1 every row
 * that comes a minute or more after its predecessor.
 */
module MidiExport {
  import opened DataEngine

  /** The timestamp row i is compared with: the row before it, or `now` for
      the first row. */
  function Predecessor(rows: seq<Row>, now: Timestamp, i: nat): Timestamp
    requires i < |rows|
  {
    if i == 0 then now else rows[i - 1].at
  }

  /** Row i opens a session: it is at least a minute after its predecessor. */
  predicate Opens(rows: seq<Row>, now: Timestamp, i: nat)
    requires i < |rows|
  {
    Gap(Predecessor(rows, now, i), rows[i].at) >= Minute
  }

  /** The indices of the rows that open a session, in row order. */
  function Openers(rows: seq<Row>, now: Timestamp): (r: seq<nat>)
    ensures forall k :: 0 <= k < |r| ==> r[k] < |rows|
  {
    if rows == [] then []
    else
      var p := Openers(rows[..|rows| - 1], now);
      if Opens(rows, now, |rows| - 1) then p + [|rows| - 1] else p
  }

  /** Whether row i opens a session does not depend on the rows after it. */
  lemma {:induction false} OpensPrefix(rows: seq<Row>, now: Timestamp, i: nat, n: nat)
    requires i < n <= |rows|
    ensures Opens(rows[..n], now, i) == Opens(rows, now, i)
  {
    if i > 0 {
      assert rows[..n][i - 1] == rows[i - 1];
    }
  }

  lemma {:induction false} OpenersStep(rows: seq<Row>, now: Timestamp, i: nat)
    requires i < |rows|
    ensures Openers(rows[..i + 1], now)
         == Openers(rows[..i], now) + (if Opens(rows, now, i) then [i] else [])
  {
    assert rows[..i + 1][..i] == rows[..i];
    OpensPrefix(rows, now, i, i + 1);
  }

  /**
   * The scan of midi_export.py:9-16 over the rows of the query. `amount`
   * counts the opening rows, and `sessions` maps 1..amount to the
   * timestamps of those rows in row order.
   */
  method CountSessions(rows: seq<Row>, now: Timestamp) returns (amount: nat, sessions: map<nat, Timestamp>)
    ensures amount == |Openers(rows, now)|
    ensures forall k :: k in sessions <==> 1 <= k <= amount
    ensures forall k :: 1 <= k <= amount ==> sessions[k] == rows[Openers(rows, now)[k - 1]].at
  {
    sessions := map[];
    amount := 0;
    var previous := now;
    for i := 0 to |rows|
      invariant previous == (if i == 0 then now else rows[i - 1].at)
      invariant amount == |Openers(rows[..i], now)|
      invariant forall k :: k in sessions <==> 1 <= k <= amount
      invariant forall k :: 1 <= k <= amount ==> sessions[k] == rows[Openers(rows[..i], now)[k - 1]].at
    {
      ghost var openers := Openers(rows[..i], now);
      OpenersStep(rows, now, i);
      if Gap(previous, rows[i].at) >= Minute {
        amount := amount + 1;
        sessions := sessions[amount := rows[i].at];
        assert Openers(rows[..i + 1], now) == openers + [i];
      }
      previous := rows[i].at;
    }
    assert rows[..|rows|] == rows;
  }

  /**
   * The openers are exactly the rows a minute or more after their
   * predecessor, listed once each in increasing row order.
   */
  lemma {:induction false} OpenersSpec(rows: seq<Row>, now: Timestamp)
    ensures forall i :: 0 <= i < |rows| ==> (i in Openers(rows, now) <==> Opens(rows, now, i))
    ensures forall a, b :: 0 <= a < b < |Openers(rows, now)| ==> Openers(rows, now)[a] < Openers(rows, now)[b]
  {
    if rows != [] {
      var n := |rows|;
      var p := rows[..n - 1];
      OpenersSpec(p, now);
      forall i | 0 <= i < n - 1
        ensures Opens(p, now, i) == Opens(rows, now, i)
      {
        OpensPrefix(rows, now, i, n - 1);
      }
    }
  }

  /**
   * On rows in timestamp order, each recorded session starts at least a
   * minute after the one recorded before it, so the values of `sessions`
   * ascend with their keys.
   */
  lemma {:induction false} OpenersAscend(rows: seq<Row>, now: Timestamp)
    requires Ordered(rows)
    ensures forall a, b :: 0 <= a < b < |Openers(rows, now)| ==>
      rows[Openers(rows, now)[a]].at.micros + Minute <= rows[Openers(rows, now)[b]].at.micros
  {
    var os := Openers(rows, now);
    OpenersSpec(rows, now);
    forall a, b | 0 <= a < b < |os|
      ensures rows[os[a]].at.micros + Minute <= rows[os[b]].at.micros
    {
      var j := os[b];
      assert os[a] < j && j in os;
      assert Opens(rows, now, j);
      OrderedBetween(rows, os[a], j - 1);
    }
  }

  lemma {:induction false} OrderedBetween(rows: seq<Row>, i: nat, j: nat)
    requires Ordered(rows) && i <= j < |rows|
    ensures rows[i].at.micros <= rows[j].at.micros
  {
    if i < j {
      OrderedBetween(rows, i, j - 1);
    }
  }

  /** When no row is later than the time the script started, the first row
      is not a minute after `now` and never opens a session. */
  lemma {:induction false} FirstRowNeverOpens(rows: seq<Row>, now: Timestamp)
    requires forall i :: 0 <= i < |rows| ==> rows[i].at.micros <= now.micros
    ensures 0 !in Openers(rows, now)
  {
    OpenersSpec(rows, now);
    if rows != [] {
      assert !Opens(rows, now, 0);
    }
  }

  /**
   * The script applies the one-minute rule of `get_midi_logs` to every row
   * after the first, but tests the first row against `now` instead of
   * always opening a session with it: it counts one session fewer than
   * `Segment` builds exactly when the first row does not open one.
   */
  lemma {:induction false} OpenersSegment(rows: seq<Row>, now: Timestamp)
    requires rows != []
    ensures |Openers(rows, now)| == |Segment(rows)| - (if Opens(rows, now, 0) then 0 else 1)
  {
    var n := |rows|;
    if n > 1 {
      var p := rows[..n - 1];
      OpenersSegment(p, now);
      OpensPrefix(rows, now, 0, n - 1);
      assert Opens(rows, now, n - 1) == (Gap(rows[n - 2].at, rows[n - 1].at) >= Minute);
    }
  }
}
