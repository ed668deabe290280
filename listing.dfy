/**
 * The session listing of `send_midi_files` (bot.py:125-165): the
 * sessions `get_midi_logs` returned are grouped by their formatted date,
 * sorted by time inside each date, the dates are listed newest first, and
 * the sessions are numbered 1, 2, ... down the listing; the total of all
 * note counts is formatted alongside.
 */
module BotListing {
  import opened Wrappers
  import opened Text
  import opened DataEngine
  import opened Bot

  /** One element of `date_sessions[date]` (bot.py:140-145); `data`, the
      encoded file, is the track that would be encoded. */
  datatype Entry = Entry(time: string, notes: nat, name: string, data: seq<Message>)

  /** One item of the `date_sessions` dict: a date and its entries. */
  datatype DateGroup = DateGroup(date: string, entries: seq<Entry>)

  function EntryOf(a: Artifact): Entry {
    Entry(a.time, a.notesCount, a.name, a.track)
  }

  function Entries(ss: seq<Artifact>): (es: seq<Entry>)
    ensures |es| == |ss|
  {
    if ss == [] then [] else Entries(ss[..|ss| - 1]) + [EntryOf(ss[|ss| - 1])]
  }

  /** `sum(session[2] for session in midi_sessions)`. */
  function SumNotes(ss: seq<Artifact>): nat {
    if ss == [] then 0 else SumNotes(ss[..|ss| - 1]) + ss[|ss| - 1].notesCount
  }

  /** The sum of the note counts of some entries. */
  function EntryNotes(es: seq<Entry>): nat {
    if es == [] then 0 else EntryNotes(es[..|es| - 1]) + es[|es| - 1].notes
  }

  // ---------------------------------------------------------------------
  // Grouping by date (bot.py:136-145)
  // ---------------------------------------------------------------------

  /** Where `date` is among the keys of the dict, if it is. */
  function DateIndex(gs: seq<DateGroup>, date: string): (r: Option<nat>)
    ensures r.Some? ==> r.value < |gs| && gs[r.value].date == date
    ensures r.None? ==> forall i :: 0 <= i < |gs| ==> gs[i].date != date
  {
    if gs == [] then None
    else if gs[|gs| - 1].date == date then Some(|gs| - 1)
    else DateIndex(gs[..|gs| - 1], date)
  }

  /** `date_sessions[date].append(e)` on a `defaultdict(list)`: a new key
      goes last, keeping the dict's insertion order. */
  function AddEntry(gs: seq<DateGroup>, date: string, e: Entry): seq<DateGroup> {
    match DateIndex(gs, date)
    case None => gs + [DateGroup(date, [e])]
    case Some(j) => gs[j := DateGroup(date, gs[j].entries + [e])]
  }

  /** The dict after the loop of bot.py:139-145. */
  function GroupByDate(ss: seq<Artifact>): seq<DateGroup> {
    if ss == [] then []
    else AddEntry(GroupByDate(ss[..|ss| - 1]), ss[|ss| - 1].date, EntryOf(ss[|ss| - 1]))
  }

  /** The entries of the sessions dated `date`, in their order. */
  function EntriesOn(ss: seq<Artifact>, date: string): seq<Entry> {
    if ss == [] then []
    else EntriesOn(ss[..|ss| - 1], date) + (if ss[|ss| - 1].date == date then [EntryOf(ss[|ss| - 1])] else [])
  }

  predicate DistinctDates(gs: seq<DateGroup>) {
    forall i, j :: 0 <= i < j < |gs| ==> gs[i].date != gs[j].date
  }

  /** All entries of the groups, group after group. */
  function Flat(gs: seq<DateGroup>): seq<Entry> {
    if gs == [] then [] else Flat(gs[..|gs| - 1]) + gs[|gs| - 1].entries
  }

  lemma {:induction false} EntriesOnAbsent(ss: seq<Artifact>, date: string)
    requires forall k :: 0 <= k < |ss| ==> ss[k].date != date
    ensures EntriesOn(ss, date) == []
  {
    if ss != [] {
      EntriesOnAbsent(ss[..|ss| - 1], date);
    }
  }

  /** The dict's keys after one append: the old keys stay where they were, and
      the appended date is a key, added last when it is new. */
  lemma {:induction false} AddEntryKeys(gs: seq<DateGroup>, date: string, e: Entry)
    ensures var r := AddEntry(gs, date, e);
      && |gs| <= |r| <= |gs| + 1
      && (forall i :: 0 <= i < |gs| ==> r[i].date == gs[i].date)
      && (|r| == |gs| + 1 ==> r[|gs|].date == date && (forall i :: 0 <= i < |gs| ==> gs[i].date != date))
      && DateIndex(r, date).Some?
  {
    var r := AddEntry(gs, date, e);
    match DateIndex(gs, date)
    case None =>
      assert r[|gs|].date == date;
    case Some(j) =>
      assert r[j].date == date;
  }

  lemma {:induction false} AddEntryDistinct(gs: seq<DateGroup>, date: string, e: Entry)
    requires DistinctDates(gs)
    ensures DistinctDates(AddEntry(gs, date, e))
  {
    AddEntryKeys(gs, date, e);
  }

  /** The dict's keys are distinct. */
  lemma {:induction false} GroupByDateDistinct(ss: seq<Artifact>)
    ensures DistinctDates(GroupByDate(ss))
  {
    if ss != [] {
      GroupByDateDistinct(ss[..|ss| - 1]);
      AddEntryDistinct(GroupByDate(ss[..|ss| - 1]), ss[|ss| - 1].date, EntryOf(ss[|ss| - 1]));
    }
  }

  /** A key of the dict stays a key after an append. */
  lemma {:induction false} AddEntryKeepsKey(gs: seq<DateGroup>, date: string, e: Entry, d: string)
    requires DateIndex(gs, d).Some?
    ensures DateIndex(AddEntry(gs, date, e), d).Some?
  {
    AddEntryKeys(gs, date, e);
    var i := DateIndex(gs, d).value;
    assert AddEntry(gs, date, e)[i].date == d;
  }

  /** Every date of the sessions is a key of the dict. */
  lemma {:induction false} GroupByDateCovers(ss: seq<Artifact>)
    ensures forall k :: 0 <= k < |ss| ==> DateIndex(GroupByDate(ss), ss[k].date).Some?
  {
    if ss != [] {
      var p, a := ss[..|ss| - 1], ss[|ss| - 1];
      GroupByDateCovers(p);
      var gp := GroupByDate(p);
      AddEntryKeys(gp, a.date, EntryOf(a));
      forall k | 0 <= k < |p| ensures DateIndex(GroupByDate(ss), ss[k].date).Some? {
        assert p[k] == ss[k];
        AddEntryKeepsKey(gp, a.date, EntryOf(a), p[k].date);
      }
    }
  }

  /** Each key holds the entries of the sessions of its date. */
  predicate GroupsMatch(gs: seq<DateGroup>, ss: seq<Artifact>) {
    forall i :: 0 <= i < |gs| ==> gs[i].entries == EntriesOn(ss, gs[i].date)
  }

  lemma {:induction false} AddEntryMatches(gs: seq<DateGroup>, p: seq<Artifact>, a: Artifact)
    requires DistinctDates(gs) && GroupsMatch(gs, p)
    requires DateIndex(gs, a.date).None? ==> EntriesOn(p, a.date) == []
    ensures GroupsMatch(AddEntry(gs, a.date, EntryOf(a)), p + [a])
  {
    var r := AddEntry(gs, a.date, EntryOf(a));
    var ss := p + [a];
    assert ss[..|ss| - 1] == p;
    AddEntryKeys(gs, a.date, EntryOf(a));
    forall i | 0 <= i < |r| ensures r[i].entries == EntriesOn(ss, r[i].date) {
      assert EntriesOn(ss, r[i].date) == EntriesOn(p, r[i].date) + (if a.date == r[i].date then [EntryOf(a)] else []);
      match DateIndex(gs, a.date)
      case None =>
        if i < |gs| {
          assert r[i] == gs[i];
        }
      case Some(j) =>
        if i != j {
          assert r[i] == gs[i] && gs[i].date != gs[j].date;
        }
    }
  }

  lemma {:induction false} GroupByDateMatches(ss: seq<Artifact>)
    ensures GroupsMatch(GroupByDate(ss), ss)
  {
    if ss != [] {
      var p, a := ss[..|ss| - 1], ss[|ss| - 1];
      GroupByDateMatches(p);
      GroupByDateDistinct(p);
      var gp := GroupByDate(p);
      if DateIndex(gp, a.date).None? {
        GroupByDateCovers(p);
        forall k | 0 <= k < |p| ensures p[k].date != a.date {
          assert DateIndex(gp, p[k].date).Some?;
        }
        EntriesOnAbsent(p, a.date);
      }
      AddEntryMatches(gp, p, a);
      assert p + [a] == ss;
    }
  }

  /**
   * The dict `date_sessions` holds one key per distinct date of the
   * sessions, and under each the entries of exactly the sessions of that
   * date, in their original order.
   */
  lemma {:induction false} GroupByDateSpec(ss: seq<Artifact>)
    ensures var gs := GroupByDate(ss);
      && DistinctDates(gs)
      && (forall i :: 0 <= i < |gs| ==> gs[i].entries == EntriesOn(ss, gs[i].date))
      && (forall k :: 0 <= k < |ss| ==> exists i :: 0 <= i < |gs| && gs[i].date == ss[k].date)
  {
    GroupByDateDistinct(ss);
    GroupByDateMatches(ss);
    GroupByDateCovers(ss);
    var gs := GroupByDate(ss);
    forall k | 0 <= k < |ss| ensures exists i :: 0 <= i < |gs| && gs[i].date == ss[k].date {
      var i := DateIndex(gs, ss[k].date).value;
      assert gs[i].date == ss[k].date;
    }
  }

  lemma {:induction false} FlatSnoc(gs: seq<DateGroup>, g: DateGroup)
    ensures Flat(gs + [g]) == Flat(gs) + g.entries
  {
    assert (gs + [g])[..|gs|] == gs;
  }

  /** Appending to one group's entries adds one entry to the flattened
      list. */
  lemma {:induction false} FlatAppendAt(gs: seq<DateGroup>, j: nat, e: Entry)
    requires j < |gs|
    ensures multiset(Flat(gs[j := DateGroup(gs[j].date, gs[j].entries + [e])])) == multiset(Flat(gs)) + multiset{e}
  {
    var n := |gs|;
    var p := gs[..n - 1];
    var g := DateGroup(gs[j].date, gs[j].entries + [e]);
    var q := gs[j := g];
    assert Flat(gs) == Flat(p) + gs[n - 1].entries;
    assert Flat(q) == Flat(q[..n - 1]) + q[n - 1].entries;
    if j == n - 1 {
      assert q[..n - 1] == p;
    } else {
      FlatAppendAt(p, j, e);
      assert p[j] == gs[j];
      assert q[..n - 1] == p[j := g];
      assert q[n - 1] == gs[n - 1];
    }
  }

  lemma {:induction false} AddEntryPermutes(gs: seq<DateGroup>, date: string, e: Entry)
    ensures multiset(Flat(AddEntry(gs, date, e))) == multiset(Flat(gs)) + multiset{e}
  {
    match DateIndex(gs, date)
    case None =>
      FlatSnoc(gs, DateGroup(date, [e]));
    case Some(j) =>
      FlatAppendAt(gs, j, e);
  }

  lemma {:induction false} GroupByDatePermutes(ss: seq<Artifact>)
    ensures multiset(Flat(GroupByDate(ss))) == multiset(Entries(ss))
  {
    if ss != [] {
      var p, a := ss[..|ss| - 1], ss[|ss| - 1];
      GroupByDatePermutes(p);
      AddEntryPermutes(GroupByDate(p), a.date, EntryOf(a));
    }
  }

  // ---------------------------------------------------------------------
  // Sorting inside a date by time (bot.py:147-149)
  // ---------------------------------------------------------------------

  /** Places `e` after every entry whose time is not later than its own:
      inserting into a sorted list this way is a stable sort step. */
  function InsertByTime(e: Entry, es: seq<Entry>): seq<Entry> {
    if es == [] then [e]
    else if StrLe(es[0].time, e.time) then [es[0]] + InsertByTime(e, es[1..])
    else [e] + es
  }

  /** `list.sort(key=lambda x: x['time'])`: the stable sort by time, as an
      insertion sort (a stable sort's result is unique). */
  function SortByTime(es: seq<Entry>): seq<Entry> {
    if es == [] then [] else InsertByTime(es[|es| - 1], SortByTime(es[..|es| - 1]))
  }

  predicate TimesAscend(es: seq<Entry>) {
    forall i :: 0 < i < |es| ==> StrLe(es[i - 1].time, es[i].time)
  }

  lemma {:induction false} InsertByTimeFirst(e: Entry, es: seq<Entry>)
    ensures |InsertByTime(e, es)| == |es| + 1
    ensures InsertByTime(e, es)[0] == e || (es != [] && InsertByTime(e, es)[0] == es[0])
  {
    if es != [] && StrLe(es[0].time, e.time) {
      InsertByTimeFirst(e, es[1..]);
    }
  }

  lemma {:induction false} InsertByTimeAscends(e: Entry, es: seq<Entry>)
    requires TimesAscend(es)
    ensures TimesAscend(InsertByTime(e, es))
  {
    if es != [] {
      if StrLe(es[0].time, e.time) {
        var t := es[1..];
        assert TimesAscend(t) by {
          forall i | 0 < i < |t| ensures StrLe(t[i - 1].time, t[i].time) {
            assert t[i - 1] == es[i] && t[i] == es[i + 1];
          }
        }
        InsertByTimeAscends(e, t);
        InsertByTimeFirst(e, t);
        var r := InsertByTime(e, es);
        var rt := InsertByTime(e, t);
        assert r == [es[0]] + rt;
        forall i | 0 < i < |r| ensures StrLe(r[i - 1].time, r[i].time) {
          if i == 1 {
            assert r[1] == rt[0];
            if rt[0] != e {
              assert rt[0] == es[1];
            }
          } else {
            assert r[i - 1] == rt[i - 2] && r[i] == rt[i - 1];
          }
        }
      } else {
        StrLeTotal(es[0].time, e.time);
      }
    }
  }

  lemma {:induction false} InsertByTimePermutes(e: Entry, es: seq<Entry>)
    ensures multiset(InsertByTime(e, es)) == multiset(es) + multiset{e}
  {
    if es != [] && StrLe(es[0].time, e.time) {
      InsertByTimePermutes(e, es[1..]);
      assert es == [es[0]] + es[1..];
    }
  }

  /** The entries of one date come out in ascending time and are the same
      entries. */
  lemma {:induction false} SortByTimeSpec(es: seq<Entry>)
    ensures TimesAscend(SortByTime(es))
    ensures multiset(SortByTime(es)) == multiset(es)
  {
    if es != [] {
      var p := es[..|es| - 1];
      SortByTimeSpec(p);
      InsertByTimeAscends(es[|es| - 1], SortByTime(p));
      InsertByTimePermutes(es[|es| - 1], SortByTime(p));
      assert es == p + [es[|es| - 1]];
    }
  }

  /** A date group with its entries sorted by time. */
  function SortGroup(g: DateGroup): DateGroup {
    DateGroup(g.date, SortByTime(g.entries))
  }

  /** The dict after the sorting loop of bot.py:148-149. */
  function SortEach(gs: seq<DateGroup>): (r: seq<DateGroup>)
    ensures |r| == |gs|
  {
    if gs == [] then [] else SortEach(gs[..|gs| - 1]) + [SortGroup(gs[|gs| - 1])]
  }

  lemma {:induction false} SortEachAt(gs: seq<DateGroup>, i: nat)
    requires i < |gs|
    ensures SortEach(gs)[i] == SortGroup(gs[i])
  {
    if i < |gs| - 1 {
      SortEachAt(gs[..|gs| - 1], i);
    }
  }

  /** One turn of the sorting loop: the first j lists sorted, the rest as
      they were. */
  lemma {:induction false} SortEachStep(gs: seq<DateGroup>, j: nat)
    requires j < |gs|
    ensures (SortEach(gs[..j]) + gs[j..])[j := SortGroup(gs[j])] == SortEach(gs[..j + 1]) + gs[j + 1..]
  {
    assert gs[..j + 1][..j] == gs[..j];
    assert gs[j..] == [gs[j]] + gs[j + 1..];
  }

  lemma {:induction false} FlatCons(g: DateGroup, gs: seq<DateGroup>)
    ensures Flat([g] + gs) == g.entries + Flat(gs)
  {
    if gs != [] {
      var p := gs[..|gs| - 1];
      FlatCons(g, p);
      assert ([g] + gs)[..|gs|] == [g] + p;
    } else {
      assert [g] + gs == [] + [g];
      FlatSnoc([], g);
    }
  }

  lemma {:induction false} SortEachPermutes(gs: seq<DateGroup>)
    ensures multiset(Flat(SortEach(gs))) == multiset(Flat(gs))
  {
    if gs != [] {
      var p := gs[..|gs| - 1];
      SortEachPermutes(p);
      SortByTimeSpec(gs[|gs| - 1].entries);
    }
  }

  // ---------------------------------------------------------------------
  // Dates, newest first (bot.py:155-157)
  // ---------------------------------------------------------------------

  /** A string `datetime.strptime(s, "%d.%m.%Y")` accepts in its zero-padded
      form: `dd.mm.yyyy` naming an existing day. */
  predicate DateText(s: string) {
    && |s| == 10 && s[2] == '.' && s[5] == '.'
    && AllDigits(s[0..2]) && AllDigits(s[3..5]) && AllDigits(s[6..10])
    && var day, month, year := ParseDecimal(s[0..2]), ParseDecimal(s[3..5]), ParseDecimal(s[6..10]);
      year >= 1 && 1 <= month <= 12 && 1 <= day <= DaysInMonth(year, month)
  }

  /** The sort key: the parsed date as yyyymmdd, which orders dates as
      `datetime` does. */
  function DateOrdinal(s: string): int {
    if |s| == 10 then ParseDecimal(s[6..10]) * 10000 + ParseDecimal(s[3..5]) * 100 + ParseDecimal(s[0..2]) else 0
  }

  predicate AllDateTexts(gs: seq<DateGroup>) {
    forall i :: 0 <= i < |gs| ==> DateText(gs[i].date)
  }

  lemma {:induction false} OrdinalFields(y1: int, m1: int, d1: int, y2: int, m2: int, d2: int)
    requires 0 <= m1 < 100 && 0 <= d1 < 100 && 0 <= m2 < 100 && 0 <= d2 < 100
    requires y1 * 10000 + m1 * 100 + d1 == y2 * 10000 + m2 * 100 + d2
    ensures y1 == y2 && m1 == m2 && d1 == d2
  {
    LastDigitStep(y1 * 1000 + m1 * 10 + d1 / 10, d1 % 10, y2 * 1000 + m2 * 10 + d2 / 10, d2 % 10);
    LastDigitStep(y1 * 100 + m1, d1 / 10, y2 * 100 + m2, d2 / 10);
    LastDigitStep(y1 * 10 + m1 / 10, m1 % 10, y2 * 10 + m2 / 10, m2 % 10);
    LastDigitStep(y1, m1 / 10, y2, m2 / 10);
  }

  /** Two accepted date strings with the same key are the same string. */
  lemma {:induction false} DateOrdinalInjective(a: string, b: string)
    requires DateText(a) && DateText(b) && DateOrdinal(a) == DateOrdinal(b)
    ensures a == b
  {
    ParseDecimalBound(a[0..2]);
    ParseDecimalBound(a[3..5]);
    ParseDecimalBound(b[0..2]);
    ParseDecimalBound(b[3..5]);
    assert Pow10(2) == 100;
    OrdinalFields(ParseDecimal(a[6..10]), ParseDecimal(a[3..5]), ParseDecimal(a[0..2]),
                  ParseDecimal(b[6..10]), ParseDecimal(b[3..5]), ParseDecimal(b[0..2]));
    ParseDecimalInjective(a[0..2], b[0..2]);
    ParseDecimalInjective(a[3..5], b[3..5]);
    ParseDecimalInjective(a[6..10], b[6..10]);
    forall i | 0 <= i < 10 ensures a[i] == b[i] {
      if i < 2 {
        assert a[i] == a[0..2][i] && b[i] == b[0..2][i];
      } else if 2 < i < 5 {
        assert a[i] == a[3..5][i - 3] && b[i] == b[3..5][i - 3];
      } else if 5 < i {
        assert a[i] == a[6..10][i - 6] && b[i] == b[6..10][i - 6];
      }
    }
  }

  /** The dates data_engine.py formats are accepted, and their key is the
      calendar date as yyyymmdd. */
  lemma {:induction false} FormatDateAccepted(t: DateTime)
    requires ValidDateTime(t)
    ensures DateText(FormatDate(t))
    ensures DateOrdinal(FormatDate(t)) == t.year * 10000 + t.month * 100 + t.day
  {
    FormatDateFields(t);
  }

  /** A group with its sort key, computed once per group as `sorted` with
      `key=` does. */
  datatype Keyed = Keyed(key: int, group: DateGroup)

  function Decorate(gs: seq<DateGroup>): (r: seq<Keyed>)
    ensures |r| == |gs|
  {
    if gs == [] then [] else Decorate(gs[..|gs| - 1]) + [Keyed(DateOrdinal(gs[|gs| - 1].date), gs[|gs| - 1])]
  }

  /** The groups of keyed groups, in order. */
  function Groups(ks: seq<Keyed>): (r: seq<DateGroup>)
    ensures |r| == |ks|
  {
    if ks == [] then [] else [ks[0].group] + Groups(ks[1..])
  }

  lemma {:induction false} DecorateAt(gs: seq<DateGroup>, i: nat)
    requires i < |gs|
    ensures Decorate(gs)[i] == Keyed(DateOrdinal(gs[i].date), gs[i])
  {
    if i < |gs| - 1 {
      DecorateAt(gs[..|gs| - 1], i);
    }
  }

  lemma {:induction false} GroupsAt(ks: seq<Keyed>, i: nat)
    requires i < |ks|
    ensures Groups(ks)[i] == ks[i].group
  {
    if i > 0 {
      GroupsAt(ks[1..], i - 1);
    }
  }

  lemma {:induction false} GroupsDecorate(gs: seq<DateGroup>)
    ensures Groups(Decorate(gs)) == gs
  {
    forall i | 0 <= i < |gs| ensures Groups(Decorate(gs))[i] == gs[i] {
      GroupsAt(Decorate(gs), i);
      DecorateAt(gs, i);
    }
  }

  lemma {:induction false} GroupsCons(k: Keyed, ks: seq<Keyed>)
    ensures Groups([k] + ks) == [k.group] + Groups(ks)
  {
    assert ([k] + ks)[1..] == ks;
  }

  lemma {:induction false} GroupsLast(ks: seq<Keyed>)
    requires ks != []
    ensures Groups(ks) == Groups(ks[..|ks| - 1]) + [ks[|ks| - 1].group]
  {
    GroupsSnoc(ks[..|ks| - 1], ks[|ks| - 1]);
    assert ks == ks[..|ks| - 1] + [ks[|ks| - 1]];
  }

  lemma {:induction false} GroupsSnoc(ks: seq<Keyed>, k: Keyed)
    ensures Groups(ks + [k]) == Groups(ks) + [k.group]
  {
    if ks != [] {
      GroupsSnoc(ks[1..], k);
      assert (ks + [k])[1..] == ks[1..] + [k];
    }
  }

  /** Places `k` after every keyed group whose key is not smaller: the stable
      sort step for `reverse=True`. */
  function InsertByKey(k: Keyed, ks: seq<Keyed>): seq<Keyed> {
    if ks == [] then [k]
    else if ks[0].key >= k.key then [ks[0]] + InsertByKey(k, ks[1..])
    else [k] + ks
  }

  function SortByKeyDesc(ks: seq<Keyed>): seq<Keyed> {
    if ks == [] then [] else InsertByKey(ks[|ks| - 1], SortByKeyDesc(ks[..|ks| - 1]))
  }

  /** `sorted(date_sessions.items(), key=<parsed date>, reverse=True)`. */
  function SortByDateDesc(gs: seq<DateGroup>): seq<DateGroup> {
    Groups(SortByKeyDesc(Decorate(gs)))
  }

  predicate KeysDescend(ks: seq<Keyed>) {
    forall i :: 0 < i < |ks| ==> ks[i - 1].key > ks[i].key
  }

  lemma {:induction false} InsertByKeyFirst(k: Keyed, ks: seq<Keyed>)
    ensures |InsertByKey(k, ks)| == |ks| + 1
    ensures InsertByKey(k, ks)[0] == k || (ks != [] && InsertByKey(k, ks)[0] == ks[0])
  {
    if ks != [] && ks[0].key >= k.key {
      InsertByKeyFirst(k, ks[1..]);
    }
  }

  lemma {:induction false} InsertByKeyPermutes(k: Keyed, ks: seq<Keyed>)
    ensures multiset(InsertByKey(k, ks)) == multiset(ks) + multiset{k}
  {
    if ks != [] && ks[0].key >= k.key {
      InsertByKeyPermutes(k, ks[1..]);
      assert ks == [ks[0]] + ks[1..];
    }
  }

  lemma {:induction false} InsertByKeyGroups(k: Keyed, ks: seq<Keyed>)
    ensures multiset(Groups(InsertByKey(k, ks))) == multiset(Groups(ks)) + multiset{k.group}
  {
    if ks == [] {
      GroupsCons(k, []);
    } else if ks[0].key >= k.key {
      var t := ks[1..];
      var rt := InsertByKey(k, t);
      InsertByKeyGroups(k, t);
      assert InsertByKey(k, ks) == [ks[0]] + rt;
      GroupsCons(ks[0], rt);
      var a, b, c := multiset(Groups(rt)), multiset(Groups(t)), multiset{ks[0].group};
      assert a == b + multiset{k.group};
      assert multiset(Groups(InsertByKey(k, ks))) == c + a;
      assert multiset(Groups(ks)) == c + b;
    } else {
      GroupsCons(k, ks);
    }
  }

  /** The entries of keyed groups, as a bag. */
  function Bag(ks: seq<Keyed>): multiset<Entry> {
    if ks == [] then multiset{} else multiset(ks[0].group.entries) + Bag(ks[1..])
  }

  lemma {:induction false} BagSnoc(ks: seq<Keyed>, k: Keyed)
    ensures Bag(ks + [k]) == Bag(ks) + multiset(k.group.entries)
  {
    if ks != [] {
      BagSnoc(ks[1..], k);
      assert (ks + [k])[1..] == ks[1..] + [k];
    } else {
      assert Bag([k]) == multiset(k.group.entries) + Bag([]);
    }
  }

  lemma {:induction false} BagLast(ks: seq<Keyed>)
    requires ks != []
    ensures Bag(ks) == Bag(ks[..|ks| - 1]) + multiset(ks[|ks| - 1].group.entries)
  {
    BagSnoc(ks[..|ks| - 1], ks[|ks| - 1]);
    assert ks == ks[..|ks| - 1] + [ks[|ks| - 1]];
  }

  lemma {:induction false} BagFlat(ks: seq<Keyed>)
    ensures Bag(ks) == multiset(Flat(Groups(ks)))
  {
    if ks != [] {
      var p := ks[..|ks| - 1];
      BagFlat(p);
      BagLast(ks);
      GroupsLast(ks);
      FlatSnoc(Groups(p), ks[|ks| - 1].group);
    }
  }

  lemma {:induction false} InsertByKeyBag(k: Keyed, ks: seq<Keyed>)
    ensures Bag(InsertByKey(k, ks)) == Bag(ks) + multiset(k.group.entries)
  {
    if ks != [] && ks[0].key >= k.key {
      var t := ks[1..];
      var rt := InsertByKey(k, t);
      InsertByKeyBag(k, t);
      assert InsertByKey(k, ks) == [ks[0]] + rt;
      assert ([ks[0]] + rt)[1..] == rt;
    } else if ks == [] {
      assert Bag([k]) == multiset(k.group.entries) + Bag([]);
    }
  }

  lemma {:induction false} ConsDescends(k: Keyed, ks: seq<Keyed>)
    requires KeysDescend(ks) && (ks != [] ==> ks[0].key < k.key)
    ensures KeysDescend([k] + ks)
  {
    var r := [k] + ks;
    forall i | 0 < i < |r| ensures r[i - 1].key > r[i].key {
      if i > 1 {
        assert r[i - 1] == ks[i - 2] && r[i] == ks[i - 1];
      }
    }
  }

  lemma {:induction false} DescendTail(ks: seq<Keyed>)
    requires KeysDescend(ks) && ks != []
    ensures KeysDescend(ks[1..])
  {
    var t := ks[1..];
    forall i | 0 < i < |t| ensures t[i - 1].key > t[i].key {
      assert t[i - 1] == ks[i] && t[i] == ks[i + 1];
    }
  }

  /** Inserting a key no other element has keeps the keys strictly
      descending. */
  lemma {:induction false} InsertByKeyDescends(k: Keyed, ks: seq<Keyed>)
    requires KeysDescend(ks)
    requires forall i :: 0 <= i < |ks| ==> ks[i].key != k.key
    ensures KeysDescend(InsertByKey(k, ks))
  {
    if ks != [] {
      if ks[0].key >= k.key {
        var t := ks[1..];
        DescendTail(ks);
        assert forall i :: 0 <= i < |t| ==> t[i] == ks[i + 1];
        InsertByKeyDescends(k, t);
        InsertByKeyFirst(k, t);
        var rt := InsertByKey(k, t);
        assert rt[0].key < ks[0].key by {
          if rt[0] != k {
            assert rt[0] == ks[1];
          } else {
            assert ks[0].key != k.key;
          }
        }
        ConsDescends(ks[0], rt);
      } else {
        ConsDescends(k, ks);
      }
    }
  }

  lemma {:induction false} SortByKeyPermutes(ks: seq<Keyed>)
    ensures multiset(SortByKeyDesc(ks)) == multiset(ks)
  {
    if ks != [] {
      var p := ks[..|ks| - 1];
      SortByKeyPermutes(p);
      InsertByKeyPermutes(ks[|ks| - 1], SortByKeyDesc(p));
      assert ks == p + [ks[|ks| - 1]];
    }
  }

  /** Sorting moves whole groups: the same groups, the same entries. */
  lemma {:induction false} SortByKeyGroups(ks: seq<Keyed>)
    ensures multiset(Groups(SortByKeyDesc(ks))) == multiset(Groups(ks))
  {
    if ks != [] {
      var p := ks[..|ks| - 1];
      SortByKeyGroups(p);
      InsertByKeyGroups(ks[|ks| - 1], SortByKeyDesc(p));
      GroupsLast(ks);
    }
  }

  lemma {:induction false} SortByKeyBag(ks: seq<Keyed>)
    ensures Bag(SortByKeyDesc(ks)) == Bag(ks)
  {
    if ks != [] {
      var p := ks[..|ks| - 1];
      SortByKeyBag(p);
      InsertByKeyBag(ks[|ks| - 1], SortByKeyDesc(p));
      BagLast(ks);
    }
  }

  predicate DistinctKeyed(ks: seq<Keyed>) {
    forall i, j :: 0 <= i < j < |ks| ==> ks[i].key != ks[j].key
  }

  lemma {:induction false} SortByKeyDescends(ks: seq<Keyed>)
    requires DistinctKeyed(ks)
    ensures KeysDescend(SortByKeyDesc(ks))
  {
    if ks != [] {
      var n := |ks|;
      var p := ks[..n - 1];
      var sp := SortByKeyDesc(p);
      assert DistinctKeyed(p) by {
        assert forall i :: 0 <= i < n - 1 ==> p[i] == ks[i];
      }
      SortByKeyDescends(p);
      SortByKeyPermutes(p);
      forall i | 0 <= i < |sp| ensures sp[i].key != ks[n - 1].key {
        assert sp[i] in multiset(sp);
        assert sp[i] in p;
        var k :| 0 <= k < n - 1 && p[k] == sp[i];
        assert ks[k] == sp[i];
      }
      InsertByKeyDescends(ks[n - 1], sp);
    }
  }

  /** Every element of the sorted list carries its own group's key. */
  lemma {:induction false} SortedKeysMatch(gs: seq<DateGroup>)
    ensures forall x :: x in SortByKeyDesc(Decorate(gs)) ==> x.key == DateOrdinal(x.group.date)
  {
    var ks := Decorate(gs);
    SortByKeyPermutes(ks);
    forall x | x in SortByKeyDesc(ks) ensures x.key == DateOrdinal(x.group.date) {
      assert x in multiset(SortByKeyDesc(ks));
      assert x in ks;
      var i :| 0 <= i < |ks| && ks[i] == x;
      DecorateAt(gs, i);
    }
  }

  /** The same groups come out, holding the same entries. */
  lemma {:induction false} SortByDateDescPermutes(gs: seq<DateGroup>)
    ensures multiset(SortByDateDesc(gs)) == multiset(gs)
    ensures multiset(Flat(SortByDateDesc(gs))) == multiset(Flat(gs))
  {
    SortByKeyGroups(Decorate(gs));
    SortByKeyBag(Decorate(gs));
    BagFlat(Decorate(gs));
    BagFlat(SortByKeyDesc(Decorate(gs)));
    GroupsDecorate(gs);
  }

  predicate DatesDescend(gs: seq<DateGroup>) {
    forall i :: 0 < i < |gs| ==> DateOrdinal(gs[i - 1].date) > DateOrdinal(gs[i].date)
  }

  /** Distinct accepted dates have distinct keys. */
  lemma {:induction false} DistinctDatesKeyed(gs: seq<DateGroup>)
    requires DistinctDates(gs) && AllDateTexts(gs)
    ensures DistinctKeyed(Decorate(gs))
  {
    var ks := Decorate(gs);
    forall i, j | 0 <= i < j < |gs| ensures ks[i].key != ks[j].key {
      DecorateAt(gs, i);
      DecorateAt(gs, j);
      if DateOrdinal(gs[i].date) == DateOrdinal(gs[j].date) {
        DateOrdinalInjective(gs[i].date, gs[j].date);
      }
    }
  }

  /** With distinct accepted dates, the dates come out strictly newest
      first. */
  lemma {:induction false} SortByDateDescDescends(gs: seq<DateGroup>)
    requires DistinctDates(gs) && AllDateTexts(gs)
    ensures DatesDescend(SortByDateDesc(gs))
  {
    var ks := SortByKeyDesc(Decorate(gs));
    DistinctDatesKeyed(gs);
    SortByKeyDescends(Decorate(gs));
    SortedKeysMatch(gs);
    var r := SortByDateDesc(gs);
    forall i | 0 < i < |r| ensures DateOrdinal(r[i - 1].date) > DateOrdinal(r[i].date) {
      GroupsAt(ks, i - 1);
      GroupsAt(ks, i);
      assert ks[i - 1] in ks && ks[i] in ks;
    }
  }

  // ---------------------------------------------------------------------
  // Which dates `strptime` accepts, and the total
  // ---------------------------------------------------------------------

  /** Every session's date is one `strptime(..., "%d.%m.%Y")` accepts. */
  predicate SessionDatesAccepted(ss: seq<Artifact>) {
    forall k :: 0 <= k < |ss| ==> DateText(ss[k].date)
  }

  lemma {:induction false} AddEntryDateTexts(gs: seq<DateGroup>, date: string, e: Entry)
    ensures AllDateTexts(AddEntry(gs, date, e)) <==> AllDateTexts(gs) && DateText(date)
  {
    var r := AddEntry(gs, date, e);
    match DateIndex(gs, date)
    case None =>
      assert r == gs + [DateGroup(date, [e])];
      assert r[|gs|].date == date;
      assert forall i :: 0 <= i < |gs| ==> r[i] == gs[i];
    case Some(j) =>
      assert |r| == |gs| && r[j].date == date && gs[j].date == date;
      assert forall i :: 0 <= i < |gs| ==> r[i].date == gs[i].date;
  }

  lemma {:induction false} SessionDatesPrefix(ss: seq<Artifact>)
    requires ss != []
    ensures SessionDatesAccepted(ss) <==> SessionDatesAccepted(ss[..|ss| - 1]) && DateText(ss[|ss| - 1].date)
  {
    var p := ss[..|ss| - 1];
    assert forall k :: 0 <= k < |p| ==> p[k] == ss[k];
  }

  /** The dict's keys are all accepted exactly when every session's date is. */
  lemma {:induction false} GroupByDateTexts(ss: seq<Artifact>)
    ensures AllDateTexts(GroupByDate(ss)) <==> SessionDatesAccepted(ss)
  {
    if ss != [] {
      var p := ss[..|ss| - 1];
      GroupByDateTexts(p);
      AddEntryDateTexts(GroupByDate(p), ss[|ss| - 1].date, EntryOf(ss[|ss| - 1]));
      SessionDatesPrefix(ss);
    }
  }

  /** Sorting inside the dates leaves the keys as they were. */
  lemma {:induction false} SortEachDates(gs: seq<DateGroup>)
    ensures forall i :: 0 <= i < |gs| ==> SortEach(gs)[i] == SortGroup(gs[i])
    ensures AllDateTexts(SortEach(gs)) <==> AllDateTexts(gs)
    ensures DistinctDates(SortEach(gs)) <==> DistinctDates(gs)
  {
    forall i | 0 <= i < |gs| ensures SortEach(gs)[i] == SortGroup(gs[i]) {
      SortEachAt(gs, i);
    }
  }

  lemma {:induction false} MultisetCancel<T>(a: multiset<T>, b: multiset<T>, x: T)
    requires a + multiset{x} == b + multiset{x}
    ensures a == b
  {
    forall y ensures a[y] == b[y] {
      assert (a + multiset{x})[y] == a[y] + multiset{x}[y];
      assert (b + multiset{x})[y] == b[y] + multiset{x}[y];
    }
  }

  lemma {:induction false} EntryNotesAppend(a: seq<Entry>, b: seq<Entry>)
    ensures EntryNotes(a + b) == EntryNotes(a) + EntryNotes(b)
  {
    if b != [] {
      var n := |b|;
      EntryNotesAppend(a, b[..n - 1]);
      assert (a + b)[..|a| + n - 1] == a + b[..n - 1];
      assert (a + b)[|a| + n - 1] == b[n - 1];
    } else {
      assert a + b == a;
    }
  }

  /** Removing the element at `j`. */
  lemma {:induction false} RemoveAt(b: seq<Entry>, j: nat)
    requires j < |b|
    ensures multiset(b[..j] + b[j + 1..]) + multiset{b[j]} == multiset(b)
    ensures EntryNotes(b[..j] + b[j + 1..]) + b[j].notes == EntryNotes(b)
  {
    assert b == b[..j] + [b[j]] + b[j + 1..];
    EntryNotesAppend(b[..j], b[j + 1..]);
    EntryNotesAppend(b[..j] + [b[j]], b[j + 1..]);
    EntryNotesAppend(b[..j], [b[j]]);
    assert EntryNotes([b[j]]) == b[j].notes by {
      assert [b[j]][..0] == [];
    }
  }

  lemma {:induction false} RemoveLast(a: seq<Entry>)
    requires a != []
    ensures multiset(a[..|a| - 1]) + multiset{a[|a| - 1]} == multiset(a)
  {
    assert a == a[..|a| - 1] + [a[|a| - 1]];
  }

  /** Entries that are a permutation of each other have the same total. */
  lemma {:induction false} EntryNotesPermutation(a: seq<Entry>, b: seq<Entry>)
    requires multiset(a) == multiset(b)
    ensures EntryNotes(a) == EntryNotes(b)
    decreases |a|
  {
    if a == [] {
      assert |multiset(b)| == 0;
    } else {
      var n := |a|;
      var x := a[n - 1];
      assert x in multiset(b);
      var j :| 0 <= j < |b| && b[j] == x;
      var b' := b[..j] + b[j + 1..];
      RemoveAt(b, j);
      RemoveLast(a);
      MultisetCancel(multiset(a[..n - 1]), multiset(b'), x);
      EntryNotesPermutation(a[..n - 1], b');
    }
  }

  lemma {:induction false} SumNotesEntries(ss: seq<Artifact>)
    ensures SumNotes(ss) == EntryNotes(Entries(ss))
  {
    if ss != [] {
      var n := |ss|;
      SumNotesEntries(ss[..n - 1]);
      assert Entries(ss)[..n - 1] == Entries(ss[..n - 1]);
    }
  }
}
