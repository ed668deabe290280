/**
 * The post-query half of `MidiLog` in data_engine.py: the rows a query
 * returned (timestamp, decoded message) are split into sessions by an
 * inactivity gap of one minute, and each session is rebuilt into a track
 * whose messages carry millisecond delta times, with a note count, a file
 * name and a formatted start date and time.
 *
 * Behaviour of the code worth noting:
 *  - the note count counts every `note_on`, whatever its velocity (the
 *    visualiser in bot.py only collects `note_on` with velocity > 0);
 *  - sessions come out in session-id order, oldest first;
 *  - without a device filter, rows of all devices are segmented as one
 *    merged stream; the filter itself is part of the SQL query, so here
 *    the rows are whatever the query returned, in its timestamp order.
 */
module DataEngine {
  import opened Wrappers
  import opened Text

  /** The `type` of a mido message, as stored in the `message_type` column.
      `Other` carries the name of any remaining type; decoding gives
      "note_on", "note_off" and "control_change" their own constructors, so
      it never produces `Other` with one of those names. */
  datatype Kind = NoteOn | NoteOff | ControlChange | Other(name: string)

  /** A decoded message: its type, note number, velocity, the remaining
      type-specific fields, and `time`, the delta time in milliseconds once it
      is placed in a track. */
  datatype Message = Message(kind: Kind, note: int, velocity: int, payload: seq<int>, time: int)

  /** The fields of a Python `datetime` that the code reads. */
  datatype DateTime = DateTime(year: nat, month: nat, day: nat, hour: nat, minute: nat, second: nat, micro: nat)

  /** A parsed timestamp: the instant in integer microseconds since the
      epoch, which `datetime` subtraction works on, and its calendar fields,
      which `strftime` prints. */
  datatype Timestamp = Timestamp(micros: int, civil: DateTime)

  /** One row of the query: `(timestamp, message)`. */
  datatype Row = Row(at: Timestamp, message: Message)

  /** One entry of the `sessions` dict: its `start_time` and `messages`. */
  datatype Group = Group(startTime: Timestamp, messages: seq<Row>)

  /** One element of the returned list: the file name, the track that
      `MidiFile.save` would encode, the note count, `dd.mm.yyyy` and `HH:MM`. */
  datatype Artifact = Artifact(name: string, track: seq<Message>, notesCount: nat, date: string, time: string)

  /** `timedelta(minutes=1)` in microseconds. */
  const Minute: int := 60_000_000

  predicate LeapYear(y: nat) {
    (y % 4 == 0 && y % 100 != 0) || y % 400 == 0
  }

  function DaysInMonth(y: nat, m: nat): nat {
    if m == 2 then (if LeapYear(y) then 29 else 28)
    else if m == 4 || m == 6 || m == 9 || m == 11 then 30
    else 31
  }

  /** The ranges a Python `datetime` keeps its fields in. */
  predicate ValidDateTime(t: DateTime) {
    && 1 <= t.year <= 9999
    && 1 <= t.month <= 12
    && 1 <= t.day <= DaysInMonth(t.year, t.month)
    && t.hour < 24 && t.minute < 60 && t.second < 60 && t.micro < 1_000_000
  }

  /** Days from 1970-01-01 to the given civil date (proleptic Gregorian). */
  function DaysFromCivil(y: int, m: int, d: int): int {
    var y1 := if m <= 2 then y - 1 else y;
    var era := y1 / 400;
    var yoe := y1 - era * 400;
    var mp := if m > 2 then m - 3 else m + 9;
    var doy := (153 * mp + 2) / 5 + d - 1;
    var doe := yoe * 365 + yoe / 4 - yoe / 100 + doy;
    era * 146097 + doe - 719468
  }

  /** Calendar fields as integer microseconds since the epoch. */
  function Micros(t: DateTime): int {
    var days := DaysFromCivil(t.year, t.month, t.day);
    (((days * 24 + t.hour) * 60 + t.minute) * 60 + t.second) * 1_000_000 + t.micro
  }

  /** A timestamp whose instant and calendar fields agree (what parsing the
      stored text yields). */
  predicate ValidTimestamp(t: Timestamp) {
    ValidDateTime(t.civil) && t.micros == Micros(t.civil)
  }

  /** `current - previous` in microseconds. */
  function Gap(previous: Timestamp, current: Timestamp): int {
    current.micros - previous.micros
  }

  /** The query's `ORDER BY timestamp`: timestamps never decrease. */
  predicate Ordered(rows: seq<Row>) {
    forall i :: 0 < i < |rows| ==> rows[i - 1].at.micros <= rows[i].at.micros
  }

  // ---------------------------------------------------------------------
  // Segmentation
  // ---------------------------------------------------------------------

  /**
   * The sessions the scan of data_engine.py:121-135 builds, in id order:
   * the first row opens session 0; every later row opens the next session
   * when it is at least a minute after the row before it, and otherwise
   * joins the current one.
   */
  function Segment(rows: seq<Row>): (gs: seq<Group>)
    ensures rows != [] ==> |gs| >= 1
  {
    if rows == [] then []
    else if |rows| == 1 then [Group(rows[0].at, [rows[0]])]
    else
      var gs := Segment(rows[..|rows| - 1]);
      var r := rows[|rows| - 1];
      if Gap(rows[|rows| - 2].at, r.at) >= Minute then gs + [Group(r.at, [r])]
      else gs[..|gs| - 1] + [Extend(gs[|gs| - 1], r)]
  }

  /** There are no sessions exactly when there are no rows, and never more
      sessions than rows. */
  lemma {:induction false} SegmentCount(rows: seq<Row>)
    ensures Segment(rows) == [] <==> rows == []
    ensures |Segment(rows)| <= |rows|
  {
    if |rows| > 1 {
      SegmentCount(rows[..|rows| - 1]);
    }
  }

  /** The first row opens the first session. */
  lemma {:induction false} SegmentFirst(rows: seq<Row>)
    requires rows != []
    ensures Segment(rows[..1]) == [Group(rows[0].at, [rows[0]])]
  {
  }

  /** Row i, a minute or more after row i-1, opens a new session. */
  lemma {:induction false} SegmentOpens(rows: seq<Row>, i: nat)
    requires 0 < i < |rows| && Gap(rows[i - 1].at, rows[i].at) >= Minute
    ensures Segment(rows[..i + 1]) == Segment(rows[..i]) + [Group(rows[i].at, [rows[i]])]
  {
    var p := rows[..i + 1];
    assert p[..|p| - 1] == rows[..i];
    assert p[|p| - 2] == rows[i - 1];
  }

  /** Row i, less than a minute after row i-1, joins the last session. */
  lemma {:induction false} SegmentJoins(rows: seq<Row>, i: nat)
    requires 0 < i < |rows| && Gap(rows[i - 1].at, rows[i].at) < Minute
    ensures var before := Segment(rows[..i]);
      Segment(rows[..i + 1]) == before[..|before| - 1] + [Extend(before[|before| - 1], rows[i])]
  {
    var p := rows[..i + 1];
    assert p[..|p| - 1] == rows[..i];
    assert p[|p| - 2] == rows[i - 1];
  }

  function Extend(g: Group, r: Row): Group {
    g.(messages := g.messages + [r])
  }

  /** The sessions' messages, concatenated in id order. */
  function Flatten(gs: seq<Group>): seq<Row> {
    if gs == [] then [] else Flatten(gs[..|gs| - 1]) + gs[|gs| - 1].messages
  }

  /** A session holds at least one message, starts at its first message, and
      no two consecutive messages in it are a minute or more apart. */
  predicate WellFormedGroup(g: Group) {
    && |g.messages| > 0
    && g.startTime == g.messages[0].at
    && forall k :: 0 < k < |g.messages| ==> Gap(g.messages[k - 1].at, g.messages[k].at) < Minute
  }

  function LastAt(g: Group): Timestamp
    requires |g.messages| > 0
  {
    g.messages[|g.messages| - 1].at
  }

  /** Between sessions j-1 and j the gap is a minute or more. */
  predicate BoundaryAt(gs: seq<Group>, j: int)
    requires 0 < j < |gs|
  {
    && |gs[j - 1].messages| > 0 && |gs[j].messages| > 0
    && Gap(LastAt(gs[j - 1]), gs[j].messages[0].at) >= Minute
  }

  predicate AllWellFormed(gs: seq<Group>) {
    forall j :: 0 <= j < |gs| ==> WellFormedGroup(gs[j])
  }

  predicate AllBoundaries(gs: seq<Group>) {
    forall j :: 0 < j < |gs| ==> BoundaryAt(gs, j)
  }

  /** `gs` splits `rows` into maximal runs: every row lies in exactly one
      session, in order, and a session ends exactly where the next row is a
      minute or more after it. */
  predicate IsSessionSplit(rows: seq<Row>, gs: seq<Group>) {
    Flatten(gs) == rows && AllWellFormed(gs) && AllBoundaries(gs)
  }

  lemma {:induction false} FlattenSnoc(gs: seq<Group>, g: Group)
    ensures Flatten(gs + [g]) == Flatten(gs) + g.messages
  {
    assert (gs + [g])[..|gs|] == gs;
  }

  lemma {:induction false} FlattenEmpty(gs: seq<Group>)
    requires AllWellFormed(gs)
    ensures Flatten(gs) == [] <==> gs == []
  {
    if gs != [] {
      assert WellFormedGroup(gs[|gs| - 1]);
    }
  }

  lemma {:induction false} WellFormedSnoc(gs: seq<Group>, g: Group)
    ensures AllWellFormed(gs + [g]) <==> AllWellFormed(gs) && WellFormedGroup(g)
  {
    var gs' := gs + [g];
    assert gs'[|gs|] == g;
    assert forall j :: 0 <= j < |gs| ==> gs'[j] == gs[j];
  }

  lemma {:induction false} BoundariesSnoc(gs: seq<Group>, g: Group)
    requires AllWellFormed(gs) && |g.messages| > 0
    ensures AllBoundaries(gs + [g]) <==>
      AllBoundaries(gs) && (gs != [] ==> Gap(LastAt(gs[|gs| - 1]), g.messages[0].at) >= Minute)
  {
    var gs' := gs + [g];
    assert forall j :: 0 <= j < |gs| ==> gs'[j] == gs[j];
    if gs != [] {
      assert WellFormedGroup(gs[|gs| - 1]);
    }
    if AllBoundaries(gs') {
      forall j | 0 < j < |gs| ensures BoundaryAt(gs, j) {
        assert BoundaryAt(gs', j);
      }
      if gs != [] {
        assert BoundaryAt(gs', |gs|);
      }
    }
    if AllBoundaries(gs) && (gs != [] ==> Gap(LastAt(gs[|gs| - 1]), g.messages[0].at) >= Minute) {
      forall j | 0 < j < |gs'| ensures BoundaryAt(gs', j) {
        if j < |gs| {
          assert BoundaryAt(gs, j);
        }
      }
    }
  }

  /** A row less than a minute after a session's last message may join it. */
  lemma {:induction false} ExtendWellFormed(g: Group, r: Row)
    requires WellFormedGroup(g) && Gap(LastAt(g), r.at) < Minute
    ensures WellFormedGroup(Extend(g, r)) && Extend(g, r).messages[0] == g.messages[0]
  {
    var ms := Extend(g, r).messages;
    forall i | 0 < i < |ms| ensures Gap(ms[i - 1].at, ms[i].at) < Minute {
      if i < |ms| - 1 {
        assert ms[i - 1] == g.messages[i - 1] && ms[i] == g.messages[i];
      }
    }
  }

  /** A session without its last message is still a session, and extending
      it by that message gives the session back. */
  lemma {:induction false} ShrinkWellFormed(g: Group)
    requires WellFormedGroup(g) && |g.messages| >= 2
    ensures var m := |g.messages|;
      var shorter := g.(messages := g.messages[..m - 1]);
      && WellFormedGroup(shorter) && shorter.messages[0] == g.messages[0]
      && Extend(shorter, g.messages[m - 1]) == g
  {
    var m := |g.messages|;
    var shorter := g.(messages := g.messages[..m - 1]);
    forall i | 0 < i < m - 1 ensures Gap(shorter.messages[i - 1].at, shorter.messages[i].at) < Minute {
      assert shorter.messages[i - 1] == g.messages[i - 1] && shorter.messages[i] == g.messages[i];
    }
    assert shorter.messages + [g.messages[m - 1]] == g.messages;
  }

  /** The last message of a split's last session is the last row, and the
      one before it (if any) is the row before. */
  lemma {:induction false} SplitLastRows(rows: seq<Row>, gs: seq<Group>)
    requires IsSessionSplit(rows, gs) && rows != []
    ensures gs != [] && WellFormedGroup(gs[|gs| - 1])
    ensures var ms := gs[|gs| - 1].messages;
      ms[|ms| - 1] == rows[|rows| - 1] && (|ms| >= 2 ==> ms[|ms| - 2] == rows[|rows| - 2])
  {
    FlattenEmpty(gs);
    var ms := gs[|gs| - 1].messages;
    assert rows == Flatten(gs[..|gs| - 1]) + ms;
  }

  /** The last session of a segmentation ends with the last row. */
  lemma {:induction false} SegmentLast(rows: seq<Row>)
    requires rows != []
    ensures var gs := Segment(rows);
      |gs[|gs| - 1].messages| > 0 && LastAt(gs[|gs| - 1]) == rows[|rows| - 1].at
  {
  }

  /** A row a minute or more after the last one opens a new session. */
  lemma {:induction false} SplitSnocNew(rows: seq<Row>, gs: seq<Group>, r: Row)
    requires IsSessionSplit(rows, gs) && gs != []
    requires Gap(LastAt(gs[|gs| - 1]), r.at) >= Minute
    ensures IsSessionSplit(rows + [r], gs + [Group(r.at, [r])])
  {
    var g := Group(r.at, [r]);
    FlattenSnoc(gs, g);
    WellFormedSnoc(gs, g);
    BoundariesSnoc(gs, g);
  }

  /** A row less than a minute after the last one joins the last session. */
  lemma {:induction false} SplitSnocExtend(rows: seq<Row>, gs: seq<Group>, r: Row)
    requires IsSessionSplit(rows, gs) && gs != []
    requires Gap(LastAt(gs[|gs| - 1]), r.at) < Minute
    ensures IsSessionSplit(rows + [r], gs[..|gs| - 1] + [Extend(gs[|gs| - 1], r)])
  {
    var init := gs[..|gs| - 1];
    var last := gs[|gs| - 1];
    var g := Extend(last, r);
    assert gs == init + [last];
    FlattenSnoc(init, last);
    WellFormedSnoc(init, last);
    BoundariesSnoc(init, last);
    ExtendWellFormed(last, r);
    FlattenSnoc(init, g);
    WellFormedSnoc(init, g);
    BoundariesSnoc(init, g);
  }

  /** One row is one session. */
  lemma {:induction false} SplitSingle(r: Row)
    ensures IsSessionSplit([r], [Group(r.at, [r])])
  {
    var g := Group(r.at, [r]);
    assert [g] == [] + [g];
    FlattenSnoc([], g);
    WellFormedSnoc([], g);
    BoundariesSnoc([], g);
  }

  /** The segmentation is a split of its input into maximal runs. */
  lemma {:induction false} SegmentIsSessionSplit(rows: seq<Row>)
    ensures IsSessionSplit(rows, Segment(rows))
  {
    if |rows| == 1 {
      SplitSingle(rows[0]);
      assert rows == [rows[0]];
    } else if |rows| > 1 {
      var n := |rows|;
      var p := rows[..n - 1];
      var r := rows[n - 1];
      assert rows == p + [r];
      SegmentIsSessionSplit(p);
      SegmentLast(p);
      if Gap(rows[n - 2].at, r.at) >= Minute {
        SplitSnocNew(p, Segment(p), r);
      } else {
        SplitSnocExtend(p, Segment(p), r);
      }
    }
  }

  /** Dropping a last session of one message splits the rows before it; that
      message is a minute or more after the row before it. */
  lemma {:induction false} SplitDropSingle(rows: seq<Row>, gs: seq<Group>)
    requires IsSessionSplit(rows, gs) && rows != []
    requires gs != [] && |gs[|gs| - 1].messages| == 1
    ensures var n := |rows|;
      && gs[|gs| - 1] == Group(rows[n - 1].at, [rows[n - 1]])
      && IsSessionSplit(rows[..n - 1], gs[..|gs| - 1])
      && (n >= 2 ==> Gap(rows[n - 2].at, rows[n - 1].at) >= Minute)
  {
    var n := |rows|;
    var init := gs[..|gs| - 1];
    var last := gs[|gs| - 1];
    SplitLastRows(rows, gs);
    assert gs == init + [last];
    FlattenSnoc(init, last);
    WellFormedSnoc(init, last);
    BoundariesSnoc(init, last);
    assert Flatten(init) == rows[..n - 1];
    if n >= 2 {
      SplitLastRows(rows[..n - 1], init);
    }
  }

  /** Dropping the last message of a last session of two or more splits the
      rows before it; that message is less than a minute after the row before
      it. */
  lemma {:induction false} SplitDropLonger(rows: seq<Row>, gs: seq<Group>)
    requires IsSessionSplit(rows, gs) && rows != []
    requires gs != [] && |gs[|gs| - 1].messages| >= 2
    ensures var n := |rows|;
      var last := gs[|gs| - 1];
      var shorter := last.(messages := last.messages[..|last.messages| - 1]);
      && n >= 2
      && IsSessionSplit(rows[..n - 1], gs[..|gs| - 1] + [shorter])
      && Gap(rows[n - 2].at, rows[n - 1].at) < Minute
      && Extend(shorter, rows[n - 1]) == last
  {
    var n := |rows|;
    var init := gs[..|gs| - 1];
    var last := gs[|gs| - 1];
    var m := |last.messages|;
    var shorter := last.(messages := last.messages[..m - 1]);
    SplitLastRows(rows, gs);
    assert gs == init + [last];
    FlattenSnoc(init, last);
    WellFormedSnoc(init, last);
    BoundariesSnoc(init, last);
    ShrinkWellFormed(last);
    assert last.messages == shorter.messages + [rows[n - 1]];
    FlattenSnoc(init, shorter);
    WellFormedSnoc(init, shorter);
    BoundariesSnoc(init, shorter);
  }

  /** A split into maximal runs is unique: it is the segmentation. */
  lemma {:induction false} SessionSplitUnique(rows: seq<Row>, gs: seq<Group>)
    requires IsSessionSplit(rows, gs)
    ensures gs == Segment(rows)
  {
    if rows == [] {
      FlattenEmpty(gs);
      return;
    }
    SplitLastRows(rows, gs);
    var n := |rows|;
    var init := gs[..|gs| - 1];
    var last := gs[|gs| - 1];
    assert gs == init + [last];
    assert rows[..n] == rows;
    if |last.messages| == 1 {
      SplitDropSingle(rows, gs);
      if n == 1 {
        FlattenEmpty(init);
      } else {
        SessionSplitUnique(rows[..n - 1], init);
        SegmentOpens(rows, n - 1);
      }
    } else {
      var shorter := last.(messages := last.messages[..|last.messages| - 1]);
      SplitDropLonger(rows, gs);
      SessionSplitUnique(rows[..n - 1], init + [shorter]);
      SegmentJoins(rows, n - 1);
      assert (init + [shorter])[..|init|] == init;
    }
  }

  lemma {:induction false} FlattenMember(gs: seq<Group>, k: nat, i: nat)
    requires k < |gs| && i < |gs[k].messages|
    ensures gs[k].messages[i] in Flatten(gs)
  {
    var n := |gs|;
    if k == n - 1 {
      assert Flatten(gs)[|Flatten(gs[..n - 1])| + i] == gs[k].messages[i];
    } else {
      FlattenMember(gs[..n - 1], k, i);
    }
  }

  /** Every session starts at the timestamp of one of the rows. */
  lemma {:induction false} SegmentStartIsRow(rows: seq<Row>, k: nat)
    requires k < |Segment(rows)|
    ensures |Segment(rows)[k].messages| > 0
    ensures Segment(rows)[k].startTime == Segment(rows)[k].messages[0].at
    ensures Segment(rows)[k].messages[0] in rows
  {
    SegmentIsSessionSplit(rows);
    FlattenMember(Segment(rows), k, 0);
  }

  lemma {:induction false} OrderedPrefix(rows: seq<Row>, k: nat)
    requires Ordered(rows) && k <= |rows|
    ensures Ordered(rows[..k])
  {
    var p := rows[..k];
    forall i | 0 < i < |p| ensures p[i - 1].at.micros <= p[i].at.micros {
      assert p[i - 1] == rows[i - 1] && p[i] == rows[i];
    }
  }

  /** Session start times strictly increase with the session id. */
  predicate StartsIncrease(gs: seq<Group>) {
    forall j, k :: 0 <= j < k < |gs| ==> gs[j].startTime.micros < gs[k].startTime.micros
  }

  /** No session starts after `t`. */
  predicate StartsNotAfter(gs: seq<Group>, t: int) {
    forall j :: 0 <= j < |gs| ==> gs[j].startTime.micros <= t
  }

  lemma {:induction false} StartsAppend(gs: seq<Group>, g: Group)
    requires StartsIncrease(gs) && StartsNotAfter(gs, g.startTime.micros - 1)
    ensures StartsIncrease(gs + [g]) && StartsNotAfter(gs + [g], g.startTime.micros)
  {
    var gs' := gs + [g];
    forall j, k | 0 <= j < k < |gs'| ensures gs'[j].startTime.micros < gs'[k].startTime.micros {
      assert gs'[j] == gs[j];
      if k < |gs| {
        assert gs'[k] == gs[k];
      }
    }
    forall j | 0 <= j < |gs'| ensures gs'[j].startTime.micros <= g.startTime.micros {
      if j < |gs| {
        assert gs'[j] == gs[j];
      }
    }
  }

  lemma {:induction false} StartsReplaceLast(gs: seq<Group>, g: Group, t: int, t': int)
    requires gs != [] && g.startTime == gs[|gs| - 1].startTime
    requires StartsIncrease(gs) && StartsNotAfter(gs, t) && t <= t'
    ensures StartsIncrease(gs[..|gs| - 1] + [g]) && StartsNotAfter(gs[..|gs| - 1] + [g], t')
  {
    var gs' := gs[..|gs| - 1] + [g];
    assert forall j :: 0 <= j < |gs'| ==> gs'[j].startTime == gs[j].startTime;
  }

  /** On ordered rows, session start times strictly increase and none is
      later than the last row. */
  lemma {:induction false} SegmentStartsIncrease(rows: seq<Row>)
    requires Ordered(rows) && rows != []
    ensures StartsIncrease(Segment(rows))
    ensures StartsNotAfter(Segment(rows), rows[|rows| - 1].at.micros)
  {
    if |rows| >= 2 {
      var n := |rows|;
      var p := rows[..n - 1];
      var r := rows[n - 1];
      OrderedPrefix(rows, n - 1);
      SegmentStartsIncrease(p);
      var ps := Segment(p);
      assert p[|p| - 1] == rows[n - 2];
      assert rows[n - 2].at.micros <= r.at.micros;
      if Gap(rows[n - 2].at, r.at) >= Minute {
        StartsAppend(ps, Group(r.at, [r]));
      } else {
        StartsReplaceLast(ps, Extend(ps[|ps| - 1], r), rows[n - 2].at.micros, r.at.micros);
      }
    }
  }

  lemma {:induction false} OrderedExtend(g: Group, r: Row)
    requires Ordered(g.messages) && |g.messages| > 0
    requires LastAt(g).micros <= r.at.micros
    ensures Ordered(Extend(g, r).messages)
  {
    var ms := Extend(g, r).messages;
    forall i | 0 < i < |ms| ensures ms[i - 1].at.micros <= ms[i].at.micros {
      if i < |ms| - 1 {
        assert ms[i - 1] == g.messages[i - 1] && ms[i] == g.messages[i];
      }
    }
  }

  /** Every session's messages are in timestamp order. */
  predicate GroupsOrdered(gs: seq<Group>) {
    forall j :: 0 <= j < |gs| ==> Ordered(gs[j].messages)
  }

  lemma {:induction false} GroupsOrderedAppend(gs: seq<Group>, g: Group)
    requires GroupsOrdered(gs) && Ordered(g.messages)
    ensures GroupsOrdered(gs + [g])
  {
    var gs' := gs + [g];
    forall j | 0 <= j < |gs'| ensures Ordered(gs'[j].messages) {
      if j < |gs| {
        assert gs'[j] == gs[j];
      }
    }
  }

  lemma {:induction false} GroupsOrderedPrefix(gs: seq<Group>)
    requires GroupsOrdered(gs) && gs != []
    ensures GroupsOrdered(gs[..|gs| - 1]) && Ordered(gs[|gs| - 1].messages)
  {
    var p := gs[..|gs| - 1];
    forall j | 0 <= j < |p| ensures Ordered(p[j].messages) {
      assert p[j] == gs[j];
    }
  }

  /** Each session's messages are in timestamp order when the rows are. */
  lemma {:induction false} SegmentGroupsOrdered(rows: seq<Row>)
    requires Ordered(rows)
    ensures GroupsOrdered(Segment(rows))
  {
    if |rows| >= 2 {
      var n := |rows|;
      var p := rows[..n - 1];
      var r := rows[n - 1];
      OrderedPrefix(rows, n - 1);
      SegmentGroupsOrdered(p);
      var ps := Segment(p);
      if Gap(rows[n - 2].at, r.at) >= Minute {
        GroupsOrderedAppend(ps, Group(r.at, [r]));
      } else {
        SegmentLast(p);
        GroupsOrderedPrefix(ps);
        OrderedExtend(ps[|ps| - 1], r);
        GroupsOrderedAppend(ps[..|ps| - 1], Extend(ps[|ps| - 1], r));
      }
    }
  }

  // ---------------------------------------------------------------------
  // Reconstruction
  // ---------------------------------------------------------------------

  /** Python's `int()` of a quotient: division truncating toward zero. */
  function TruncDiv(x: int, d: int): (q: int)
    requires d > 0
    ensures x >= 0 ==> 0 <= x - q * d < d
    ensures x < 0 ==> -d < x - q * d <= 0
  {
    if x >= 0 then x / d else -((-x) / d)
  }

  /** `int((current - previous).total_seconds() * 1000)`, computed on integer
      microseconds. */
  function DeltaMs(previous: Timestamp, current: Timestamp): int {
    TruncDiv(Gap(previous, current), 1000)
  }

  /** The messages of `ms` in order, each with `time` set to the milliseconds
      since the message before it (since `start` for the first). */
  function Retimed(ms: seq<Row>, start: Timestamp): (t: seq<Message>)
    ensures |t| == |ms|
  {
    if ms == [] then []
    else
      var previous := if |ms| == 1 then start else ms[|ms| - 2].at;
      Retimed(ms[..|ms| - 1], start) + [ms[|ms| - 1].message.(time := DeltaMs(previous, ms[|ms| - 1].at))]
  }

  /** The track data_engine.py:144-152 builds for one session, timed from its
      `start_time`. */
  function Track(g: Group): seq<Message> {
    Retimed(g.messages, g.startTime)
  }

  lemma {:induction false} RetimedAt(ms: seq<Row>, start: Timestamp, i: nat)
    requires i < |ms|
    ensures Retimed(ms, start)[i] == ms[i].message.(time := DeltaMs(if i == 0 then start else ms[i - 1].at, ms[i].at))
  {
    var n := |ms|;
    if i < n - 1 {
      var p := ms[..n - 1];
      RetimedAt(p, start, i);
      assert p[i] == ms[i];
      if i > 0 {
        assert p[i - 1] == ms[i - 1];
      }
    }
  }

  /** The number of `note_on` messages, whatever their velocity. */
  function CountNoteOn(rows: seq<Row>): nat {
    if rows == [] then 0
    else CountNoteOn(rows[..|rows| - 1]) + (if rows[|rows| - 1].message.kind == NoteOn then 1 else 0)
  }

  /** The sum of the `time` fields of a track. */
  function SumTimes(track: seq<Message>): int {
    if track == [] then 0 else SumTimes(track[..|track| - 1]) + track[|track| - 1].time
  }

  /** Each message of the track is the stored message with only its `time`
      replaced; the first has delta 0 and every later one the truncated
      milliseconds since its predecessor, which is never negative for ordered
      messages. */
  lemma {:induction false} TrackDeltas(g: Group)
    requires WellFormedGroup(g)
    ensures |Track(g)| == |g.messages|
    ensures Track(g)[0].time == 0
    ensures forall i :: 0 <= i < |g.messages| ==>
      Track(g)[i].(time := 0) == g.messages[i].message.(time := 0)
    ensures forall i :: 0 < i < |g.messages| ==>
      Track(g)[i].time == TruncDiv(g.messages[i].at.micros - g.messages[i - 1].at.micros, 1000)
    ensures Ordered(g.messages) ==> forall i :: 0 <= i < |g.messages| ==> Track(g)[i].time >= 0
  {
    var ms := g.messages;
    forall i | 0 <= i < |ms|
      ensures Track(g)[i].(time := 0) == ms[i].message.(time := 0)
      ensures Track(g)[i].time == if i == 0 then 0 else TruncDiv(ms[i].at.micros - ms[i - 1].at.micros, 1000)
    {
      RetimedAt(ms, g.startTime, i);
    }
    assert g.startTime == ms[0].at;
    assert DeltaMs(g.startTime, ms[0].at) == 0;
    RetimedAt(ms, g.startTime, 0);
    assert Track(g)[0].time == 0;
    if Ordered(ms) {
      forall i | 0 <= i < |ms| ensures Track(g)[i].time >= 0 {
        if i > 0 {
          assert ms[i - 1].at.micros <= ms[i].at.micros;
        }
      }
    }
  }

  lemma {:induction false} DivAddBounds(a: int, b: int)
    requires a >= 0 && b >= 0
    ensures a / 1000 + b / 1000 <= (a + b) / 1000 <= a / 1000 + b / 1000 + 1
  {
    var qa, ra := a / 1000, a % 1000;
    var qb, rb := b / 1000, b % 1000;
    assert a + b == (qa + qb) * 1000 + (ra + rb);
    if ra + rb < 1000 {
      assert (a + b) / 1000 == qa + qb;
    } else {
      assert a + b == (qa + qb + 1) * 1000 + (ra + rb - 1000);
      assert (a + b) / 1000 == qa + qb + 1;
    }
  }

  /** Re-summing the deltas of the first k+1 messages gives the elapsed time
      since the session start, in whole milliseconds, up to one millisecond lost
      per later message through truncation. */
  lemma {:induction false} TrackElapsed(g: Group, k: nat)
    requires WellFormedGroup(g) && Ordered(g.messages)
    requires k < |g.messages|
    ensures var elapsed := g.messages[k].at.micros - g.messages[0].at.micros;
      elapsed >= 0 &&
      elapsed / 1000 - k <= SumTimes(Track(g)[..k + 1]) <= elapsed / 1000
  {
    var t := Track(g);
    var ms := g.messages;
    TrackDeltas(g);
    if k == 0 {
      assert t[..1] == [t[0]];
      assert SumTimes(t[..1]) == SumTimes([]) + t[0].time;
    } else {
      TrackElapsed(g, k - 1);
      assert t[..k + 1][..k] == t[..k];
      assert SumTimes(t[..k + 1]) == SumTimes(t[..k]) + t[k].time;
      var before := ms[k - 1].at.micros - ms[0].at.micros;
      var d := ms[k].at.micros - ms[k - 1].at.micros;
      assert d >= 0;
      assert t[k].time == d / 1000;
      DivAddBounds(before, d);
    }
  }

  /** Counting `note_on` is additive over concatenation. */
  lemma {:induction false} CountNoteOnAppend(a: seq<Row>, b: seq<Row>)
    ensures CountNoteOn(a + b) == CountNoteOn(a) + CountNoteOn(b)
  {
    if b != [] {
      assert (a + b)[..|a + b| - 1] == a + b[..|b| - 1];
      CountNoteOnAppend(a, b[..|b| - 1]);
    } else {
      assert a + b == a;
    }
  }

  /** The note count is at most the number of messages, with equality exactly
      when every message is a `note_on`. */
  lemma {:induction false} CountNoteOnBounds(rows: seq<Row>)
    ensures CountNoteOn(rows) <= |rows|
    ensures CountNoteOn(rows) == |rows| <==> forall i :: 0 <= i < |rows| ==> rows[i].message.kind == NoteOn
  {
    if rows != [] {
      var p := rows[..|rows| - 1];
      CountNoteOnBounds(p);
      assert forall i :: 0 <= i < |p| ==> p[i] == rows[i];
    }
  }

  // ---------------------------------------------------------------------
  // Names and formatted times
  // ---------------------------------------------------------------------

  /** `f"_{input_name}" if input_name else ""`: both None and "" give no tag. */
  function DeviceTag(inputName: Option<string>): string {
    if inputName.Some? && inputName.value != "" then "_" + inputName.value else ""
  }

  /** `strftime('%Y-%m-%d_%H-%M')`. */
  function StampText(t: DateTime): string {
    Pad(t.year, 4) + "-" + Pad(t.month, 2) + "-" + Pad(t.day, 2) + "_" + Pad(t.hour, 2) + "-" + Pad(t.minute, 2)
  }

  /** `strftime("%d.%m.%Y")`. */
  function FormatDate(t: DateTime): string {
    Pad(t.day, 2) + "." + Pad(t.month, 2) + "." + Pad(t.year, 4)
  }

  /** `strftime("%H:%M")`. */
  function FormatTime(t: DateTime): string {
    Pad(t.hour, 2) + ":" + Pad(t.minute, 2)
  }

  /** `f"session_{session_id}{device_tag}_{...}.mid"`. */
  function SessionName(id: nat, inputName: Option<string>, start: DateTime): string {
    "session_" + NatToString(id) + NameSuffix(inputName, start)
  }

  /** The part of a session name after the id. */
  function NameSuffix(inputName: Option<string>, start: DateTime): string {
    DeviceTag(inputName) + "_" + StampText(start) + ".mid"
  }

  lemma {:induction false} FieldWidths(t: DateTime)
    requires ValidDateTime(t)
    ensures |Pad(t.year, 4)| == 4 && |Pad(t.month, 2)| == 2 && |Pad(t.day, 2)| == 2
    ensures |Pad(t.hour, 2)| == 2 && |Pad(t.minute, 2)| == 2
  {
    assert Pow10(2) == 100;
    assert Pow10(4) == 10000;
    PadFits(t.year, 4);
    PadFits(t.month, 2);
    PadFits(t.day, 2);
    PadFits(t.hour, 2);
    PadFits(t.minute, 2);
  }

  /** The date reads `dd.mm.yyyy`: ten characters, dots at 2 and 5, and the
      three zero-padded fields read back as day, month and year. */
  lemma {:induction false} FormatDateFields(t: DateTime)
    requires ValidDateTime(t)
    ensures var s := FormatDate(t);
      && |s| == 10 && s[2] == '.' && s[5] == '.'
      && AllDigits(s[0..2]) && AllDigits(s[3..5]) && AllDigits(s[6..10])
      && ParseDecimal(s[0..2]) == t.day && ParseDecimal(s[3..5]) == t.month && ParseDecimal(s[6..10]) == t.year
  {
    FieldWidths(t);
    var s := FormatDate(t);
    assert s[0..2] == Pad(t.day, 2);
    assert s[3..5] == Pad(t.month, 2);
    assert s[6..10] == Pad(t.year, 4);
    PadRoundTrip(t.day, 2);
    PadRoundTrip(t.month, 2);
    PadRoundTrip(t.year, 4);
  }

  /** The time reads `HH:MM`: five characters, a colon at 2, and the fields
      read back as hour and minute. */
  lemma {:induction false} FormatTimeFields(t: DateTime)
    requires ValidDateTime(t)
    ensures var s := FormatTime(t);
      && |s| == 5 && s[2] == ':' && AllDigits(s[0..2]) && AllDigits(s[3..5])
      && ParseDecimal(s[0..2]) == t.hour && ParseDecimal(s[3..5]) == t.minute
  {
    FieldWidths(t);
    var s := FormatTime(t);
    assert s[0..2] == Pad(t.hour, 2);
    assert s[3..5] == Pad(t.minute, 2);
    PadRoundTrip(t.hour, 2);
    PadRoundTrip(t.minute, 2);
  }

  /** The stamp `yyyy-mm-dd_HH-MM` has sixteen characters. */
  lemma {:induction false} StampTextLength(t: DateTime)
    requires ValidDateTime(t)
    ensures |StampText(t)| == 16
  {
    FieldWidths(t);
  }

  lemma {:induction false} ConcatMiddle(p: string, x: string, y: string)
    ensures (p + x + y)[|p|..|p| + |x|] == x
  {
    var s := p + x + y;
    assert forall i :: 0 <= i < |x| ==> s[|p|..|p| + |x|][i] == s[|p| + i] == x[i];
  }

  /** Names of different sessions of one query differ: the session id can be
      read back from the name. */
  lemma {:induction false} SessionNamesDistinct(id1: nat, id2: nat, inputName: Option<string>, s1: DateTime, s2: DateTime)
    requires ValidDateTime(s1) && ValidDateTime(s2)
    requires id1 != id2
    ensures SessionName(id1, inputName, s1) != SessionName(id2, inputName, s2)
  {
    StampTextLength(s1);
    StampTextLength(s2);
    var n1, n2 := NatToString(id1), NatToString(id2);
    var suffix1, suffix2 := NameSuffix(inputName, s1), NameSuffix(inputName, s2);
    assert |suffix1| == |suffix2|;
    if SessionName(id1, inputName, s1) == SessionName(id2, inputName, s2) {
      assert |n1| == |n2|;
      ConcatMiddle("session_", n1, suffix1);
      ConcatMiddle("session_", n2, suffix2);
      NatToStringInjective(id1, id2);
    }
  }

  // ---------------------------------------------------------------------
  // The operations
  // ---------------------------------------------------------------------

  /** The element data_engine.py:139-175 appends for session `id`. */
  function MakeArtifact(id: nat, g: Group, inputName: Option<string>): Artifact {
    var start := g.startTime.civil;
    Artifact(SessionName(id, inputName, start), Track(g), CountNoteOn(g.messages), FormatDate(start), FormatTime(start))
  }

  /** What `get_midi_logs` returns for the rows its query fetched. */
  function MidiLogs(rows: seq<Row>, inputName: Option<string>): seq<Artifact> {
    Artifacts(Segment(rows), inputName)
  }

  /** The artifacts of sessions `gs`, numbered by position. */
  function Artifacts(gs: seq<Group>, inputName: Option<string>): (r: seq<Artifact>)
    ensures |r| == |gs|
  {
    if gs == [] then []
    else Artifacts(gs[..|gs| - 1], inputName) + [MakeArtifact(|gs| - 1, gs[|gs| - 1], inputName)]
  }

  lemma {:induction false} ArtifactsSnoc(gs: seq<Group>, k: nat, inputName: Option<string>)
    requires k < |gs|
    ensures Artifacts(gs[..k + 1], inputName) == Artifacts(gs[..k], inputName) + [MakeArtifact(k, gs[k], inputName)]
  {
    assert gs[..k + 1][..k] == gs[..k];
  }

  /** Entry k is session k rebuilt under id k. */
  lemma {:induction false} ArtifactsAt(gs: seq<Group>, inputName: Option<string>, k: nat)
    requires k < |gs|
    ensures Artifacts(gs, inputName)[k] == MakeArtifact(k, gs[k], inputName)
  {
    if k < |gs| - 1 {
      ArtifactsAt(gs[..|gs| - 1], inputName, k);
    }
  }

  /** Rebuilds one session (data_engine.py:140-175). */
  method Reconstruct(id: nat, g: Group, inputName: Option<string>) returns (a: Artifact)
    requires Ordered(g.messages)
    ensures a == MakeArtifact(id, g, inputName)
  {
    var track: seq<Message> := [];
    var prevTime := g.startTime;
    var notesCount := 0;
    for i := 0 to |g.messages|
      invariant track == Retimed(g.messages[..i], g.startTime)
      invariant prevTime == if i == 0 then g.startTime else g.messages[i - 1].at
      invariant notesCount == CountNoteOn(g.messages[..i])
    {
      var row := g.messages[i];
      var deltaTicks := TruncDiv(row.at.micros - prevTime.micros, 1000);
      var msg := row.message.(time := deltaTicks);
      ghost var p := g.messages[..i + 1];
      assert p[..i] == g.messages[..i] && p[i] == row;
      assert i > 0 ==> p[i - 1] == g.messages[i - 1];
      track := track + [msg];
      prevTime := row.at;
      if msg.kind == NoteOn {
        notesCount := notesCount + 1;
      }
    }
    assert g.messages[..|g.messages|] == g.messages;
    var start := g.startTime.civil;
    a := Artifact(SessionName(id, inputName, start), track, notesCount, FormatDate(start), FormatTime(start));
  }

  /** A row a minute or more after the row before opens session |sessions|. */
  lemma {:induction false} ScanOpens(rows: seq<Row>, i: nat, sessions: seq<Group>)
    requires 0 < i < |rows| && sessions == Segment(rows[..i])
    requires Gap(rows[i - 1].at, rows[i].at) >= Minute
    ensures (sessions + [Group(rows[i].at, [])])[|sessions| := Extend(Group(rows[i].at, []), rows[i])] == Segment(rows[..i + 1])
  {
    assert [] + [rows[i]] == [rows[i]];
    SegmentOpens(rows, i);
  }

  /** The first row opens session 0. */
  lemma {:induction false} ScanFirst(rows: seq<Row>)
    requires rows != []
    ensures [Group(rows[0].at, [])][0 := Extend(Group(rows[0].at, []), rows[0])] == Segment(rows[..1])
  {
    assert [] + [rows[0]] == [rows[0]];
    SegmentFirst(rows);
  }

  /** A row less than a minute after the row before joins the last session. */
  lemma {:induction false} ScanJoins(rows: seq<Row>, i: nat, sessions: seq<Group>)
    requires 0 < i < |rows| && sessions == Segment(rows[..i])
    requires Gap(rows[i - 1].at, rows[i].at) < Minute
    ensures sessions != []
    ensures sessions[|sessions| - 1 := Extend(sessions[|sessions| - 1], rows[i])] == Segment(rows[..i + 1])
  {
    SegmentJoins(rows, i);
    var k := |sessions| - 1;
    assert sessions[k := Extend(sessions[k], rows[i])] == sessions[..k] + [Extend(sessions[k], rows[i])];
  }

  /**
   * The scan of data_engine.py:121-135. The dict `sessions` always has the
   * keys 0..session_id, so it is a sequence indexed by session id, and
   * "session_id not in sessions" means the id equals its length.
   */
  method GroupSessions(rows: seq<Row>) returns (sessions: seq<Group>)
    requires rows != []
    ensures sessions == Segment(rows)
  {
    sessions := [];
    var sessionId := 0;
    var prevTimestamp := rows[0].at;
    for i := 0 to |rows|
      invariant sessions == Segment(rows[..i])
      invariant i == 0 ==> sessionId == 0 && prevTimestamp == rows[0].at
      invariant i > 0 ==> sessionId == |sessions| - 1 && prevTimestamp == rows[i - 1].at
    {
      var row := rows[i];
      var currentTimestamp := row.at;
      if Gap(prevTimestamp, currentTimestamp) >= Minute {
        ScanOpens(rows, i, sessions);
        sessionId := sessionId + 1;
      } else if i == 0 {
        assert rows[..0] == [];
        ScanFirst(rows);
      } else {
        ScanJoins(rows, i, sessions);
      }
      if sessionId == |sessions| {
        sessions := sessions + [Group(currentTimestamp, [])];
      }
      sessions := sessions[sessionId := Extend(sessions[sessionId], row)];
      prevTimestamp := currentTimestamp;
    }
    assert rows[..|rows|] == rows;
  }

  /** On rows in timestamp order, no message of any rebuilt track has a
      negative delta time. */
  lemma {:induction false} MidiLogsDeltasNonNegative(rows: seq<Row>, inputName: Option<string>)
    requires Ordered(rows)
    ensures forall k, i :: 0 <= k < |MidiLogs(rows, inputName)| && 0 <= i < |MidiLogs(rows, inputName)[k].track| ==>
      MidiLogs(rows, inputName)[k].track[i].time >= 0
  {
    var gs := Segment(rows);
    SegmentIsSessionSplit(rows);
    SegmentGroupsOrdered(rows);
    forall k, i | 0 <= k < |gs| && 0 <= i < |MidiLogs(rows, inputName)[k].track|
      ensures MidiLogs(rows, inputName)[k].track[i].time >= 0
    {
      ArtifactsAt(gs, inputName, k);
      assert WellFormedGroup(gs[k]);
      TrackDeltas(gs[k]);
    }
  }

  /** `get_midi_logs` after its query: `rows` are the fetched rows (already
      restricted to the period and device, in the `ORDER BY timestamp` order
      of the query). */
  method GetMidiLogs(rows: seq<Row>, inputName: Option<string>) returns (result: seq<Artifact>)
    requires Ordered(rows)
    ensures rows == [] ==> result == []
    ensures |result| == |Segment(rows)|
    ensures result == MidiLogs(rows, inputName)
  {
    if |rows| == 0 {
      return [];
    }
    var sessions := GroupSessions(rows);
    SegmentGroupsOrdered(rows);
    result := [];
    for k := 0 to |sessions|
      invariant result == Artifacts(sessions[..k], inputName)
    {
      var artifact := Reconstruct(k, sessions[k], inputName);
      ArtifactsSnoc(sessions, k, inputName);
      result := result + [artifact];
    }
    assert sessions[..|sessions|] == sessions;
  }

  /** `get_session_by_id`: the 0-based entry of the all-time result for the
      same device filter, or none when the index is out of range. */
  method GetSessionById(allRows: seq<Row>, sessionId: int, inputName: Option<string>) returns (r: Option<Artifact>)
    requires Ordered(allRows)
    ensures r.None? <==> sessionId < 0 || sessionId >= |Segment(allRows)|
    ensures r.Some? ==> 0 <= sessionId < |MidiLogs(allRows, inputName)| && r.value == MidiLogs(allRows, inputName)[sessionId]
  {
    var allSessions := GetMidiLogs(allRows, inputName);
    if sessionId < 0 || sessionId >= |allSessions| {
      return None;
    }
    return Some(allSessions[sessionId]);
  }
}
