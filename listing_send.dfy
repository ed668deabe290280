/**
 * The text `send_midi_files` builds (bot.py:151-164): under each date, newest
 * date first, a heading line, then one numbered line per session; the
 * numbers run on across dates.
 */
module BotSend {
  import opened Wrappers
  import opened Text
  import opened DataEngine
  import opened Bot
  import opened BotListing

  /** One element of `file_list`: a date heading or a numbered session. */
  datatype Line = Header(date: string) | Item(number: nat, entry: Entry)

  /** The outcome of the listing: no sessions, the error reply (a date
      `strptime` rejects), or the listing text with the total of the note
      counts and its wording. */
  datatype Listing = NoData | LoadError | Listed(text: string, totalNotes: nat, totalText: string)

  // ---------------------------------------------------------------------
  // The lines of the listing
  // ---------------------------------------------------------------------

  /** The lines of entries `es`, numbered from `first`. */
  function ItemLines(es: seq<Entry>, first: nat): (r: seq<Line>)
    ensures |r| == |es|
  {
    if es == [] then [] else ItemLines(es[..|es| - 1], first) + [Item(first + |es| - 1, es[|es| - 1])]
  }

  /** The heading of a date followed by its numbered sessions. */
  function GroupLines(g: DateGroup, first: nat): seq<Line> {
    [Header(g.date)] + ItemLines(g.entries, first)
  }

  /** The lines for the dates `gs` in order, numbering from 1. */
  function Layout(gs: seq<DateGroup>): seq<Line> {
    if gs == [] then []
    else Layout(gs[..|gs| - 1]) + GroupLines(gs[|gs| - 1], |Flat(gs[..|gs| - 1])| + 1)
  }

  /** The numbered lines among `ls`, in order. */
  function ItemsOf(ls: seq<Line>): seq<Line> {
    if ls == [] then []
    else ItemsOf(ls[..|ls| - 1]) + (if ls[|ls| - 1].Item? then [ls[|ls| - 1]] else [])
  }

  /** The heading lines among `ls`, in order. */
  function HeadersOf(ls: seq<Line>): seq<Line> {
    if ls == [] then []
    else HeadersOf(ls[..|ls| - 1]) + (if ls[|ls| - 1].Header? then [ls[|ls| - 1]] else [])
  }

  /** One heading per date of `gs`, in order. */
  function DateHeaders(gs: seq<DateGroup>): (r: seq<Line>)
    ensures |r| == |gs|
  {
    if gs == [] then [] else DateHeaders(gs[..|gs| - 1]) + [Header(gs[|gs| - 1].date)]
  }

  lemma {:induction false} ItemLinesAt(es: seq<Entry>, first: nat, k: nat)
    requires k < |es|
    ensures ItemLines(es, first)[k] == Item(first + k, es[k])
  {
    if k < |es| - 1 {
      ItemLinesAt(es[..|es| - 1], first, k);
    }
  }

  lemma {:induction false} ItemLinesSnoc(es: seq<Entry>, first: nat, k: nat)
    requires k < |es|
    ensures ItemLines(es[..k + 1], first) == ItemLines(es[..k], first) + [Item(first + k, es[k])]
  {
    assert es[..k + 1][..k] == es[..k];
  }

  lemma {:induction false} ItemLinesAppend(a: seq<Entry>, b: seq<Entry>, first: nat)
    ensures ItemLines(a + b, first) == ItemLines(a, first) + ItemLines(b, first + |a|)
  {
    if b != [] {
      var n := |b|;
      ItemLinesAppend(a, b[..n - 1], first);
      assert (a + b)[..|a| + n - 1] == a + b[..n - 1];
    } else {
      assert a + b == a;
    }
  }

  lemma {:induction false} ItemsOfAppend(a: seq<Line>, b: seq<Line>)
    ensures ItemsOf(a + b) == ItemsOf(a) + ItemsOf(b)
  {
    if b != [] {
      var n := |b|;
      ItemsOfAppend(a, b[..n - 1]);
      assert (a + b)[..|a| + n - 1] == a + b[..n - 1];
      assert (a + b)[|a| + n - 1] == b[n - 1];
    } else {
      assert a + b == a;
    }
  }

  lemma {:induction false} HeadersOfAppend(a: seq<Line>, b: seq<Line>)
    ensures HeadersOf(a + b) == HeadersOf(a) + HeadersOf(b)
  {
    if b != [] {
      var n := |b|;
      HeadersOfAppend(a, b[..n - 1]);
      assert (a + b)[..|a| + n - 1] == a + b[..n - 1];
      assert (a + b)[|a| + n - 1] == b[n - 1];
    } else {
      assert a + b == a;
    }
  }

  lemma {:induction false} ItemLinesOnlyItems(es: seq<Entry>, first: nat)
    ensures ItemsOf(ItemLines(es, first)) == ItemLines(es, first)
    ensures HeadersOf(ItemLines(es, first)) == []
  {
    if es != [] {
      var n := |es|;
      ItemLinesOnlyItems(es[..n - 1], first);
      ItemsOfAppend(ItemLines(es[..n - 1], first), [Item(first + n - 1, es[n - 1])]);
      HeadersOfAppend(ItemLines(es[..n - 1], first), [Item(first + n - 1, es[n - 1])]);
    }
  }

  lemma {:induction false} FlatPrefix(gs: seq<DateGroup>, i: nat)
    requires i < |gs|
    ensures Flat(gs[..i + 1]) == Flat(gs[..i]) + gs[i].entries
  {
    assert gs[..i + 1][..i] == gs[..i];
  }

  lemma {:induction false} LayoutPrefix(gs: seq<DateGroup>, i: nat)
    requires i < |gs|
    ensures Layout(gs[..i + 1]) == Layout(gs[..i]) + [Header(gs[i].date)] + ItemLines(gs[i].entries, |Flat(gs[..i])| + 1)
  {
    assert gs[..i + 1][..i] == gs[..i];
  }

  lemma {:induction false} GroupLinesParts(g: DateGroup, first: nat)
    ensures ItemsOf(GroupLines(g, first)) == ItemLines(g.entries, first)
    ensures HeadersOf(GroupLines(g, first)) == [Header(g.date)]
  {
    ItemsOfAppend([Header(g.date)], ItemLines(g.entries, first));
    HeadersOfAppend([Header(g.date)], ItemLines(g.entries, first));
    ItemLinesOnlyItems(g.entries, first);
    assert [Header(g.date)][..0] == [];
  }

  /**
   * The numbered lines of the listing are exactly the sessions of the dates
   * in order, numbered 1, 2, ... without gap.
   */
  lemma {:induction false} LayoutItems(gs: seq<DateGroup>)
    ensures ItemsOf(Layout(gs)) == ItemLines(Flat(gs), 1)
  {
    if gs != [] {
      var p := gs[..|gs| - 1];
      LayoutItems(p);
      ItemsStep(Layout(p), Flat(p), gs[|gs| - 1]);
    }
  }

  lemma {:induction false} ItemsStep(lp: seq<Line>, fp: seq<Entry>, g: DateGroup)
    requires ItemsOf(lp) == ItemLines(fp, 1)
    ensures ItemsOf(lp + GroupLines(g, |fp| + 1)) == ItemLines(fp + g.entries, 1)
  {
    ItemsOfAppend(lp, GroupLines(g, |fp| + 1));
    GroupLinesParts(g, |fp| + 1);
    ItemLinesAppend(fp, g.entries, 1);
  }

  /** The headings of the listing are one per date, in order. */
  lemma {:induction false} LayoutHeaders(gs: seq<DateGroup>)
    ensures HeadersOf(Layout(gs)) == DateHeaders(gs)
  {
    if gs != [] {
      var n := |gs|;
      var p, g := gs[..n - 1], gs[n - 1];
      var first := |Flat(p)| + 1;
      LayoutHeaders(p);
      assert Layout(gs) == Layout(p) + GroupLines(g, first);
      HeadersOfAppend(Layout(p), GroupLines(g, first));
      GroupLinesParts(g, first);
      assert DateHeaders(gs) == DateHeaders(p) + [Header(g.date)];
    }
  }

  /** Two numbered lines next to each other have times in ascending order. */
  predicate AdjacentItemsAscend(ls: seq<Line>) {
    forall i :: 0 < i < |ls| && ls[i - 1].Item? && ls[i].Item? ==> StrLe(ls[i - 1].entry.time, ls[i].entry.time)
  }

  predicate AllTimesAscend(gs: seq<DateGroup>) {
    forall i :: 0 <= i < |gs| ==> TimesAscend(gs[i].entries)
  }

  lemma {:induction false} ItemLinesAscend(es: seq<Entry>, first: nat)
    requires TimesAscend(es)
    ensures AdjacentItemsAscend(ItemLines(es, first))
  {
    var r := ItemLines(es, first);
    forall i | 0 < i < |r| && r[i - 1].Item? && r[i].Item? ensures StrLe(r[i - 1].entry.time, r[i].entry.time) {
      ItemLinesAt(es, first, i - 1);
      ItemLinesAt(es, first, i);
    }
  }

  lemma {:induction false} GroupLinesAscend(ls: seq<Line>, g: DateGroup, first: nat)
    requires AdjacentItemsAscend(ls) && TimesAscend(g.entries)
    ensures AdjacentItemsAscend(ls + GroupLines(g, first))
  {
    var items := ItemLines(g.entries, first);
    var r := ls + [Header(g.date)] + items;
    assert r == ls + GroupLines(g, first);
    ItemLinesAscend(g.entries, first);
    assert r[|ls|] == Header(g.date);
    forall i | 0 < i < |r| && r[i - 1].Item? && r[i].Item? ensures StrLe(r[i - 1].entry.time, r[i].entry.time) {
      if i < |ls| {
        assert r[i - 1] == ls[i - 1] && r[i] == ls[i];
      } else if i > |ls| + 1 {
        assert r[i - 1] == items[i - 2 - |ls|] && r[i] == items[i - 1 - |ls|];
      }
    }
  }

  /** Times ascend from one numbered line to the next inside every date. */
  lemma {:induction false} LayoutAscends(gs: seq<DateGroup>)
    requires AllTimesAscend(gs)
    ensures AdjacentItemsAscend(Layout(gs))
  {
    if gs != [] {
      var n := |gs|;
      var p := gs[..n - 1];
      assert AllTimesAscend(p) by {
        assert forall i :: 0 <= i < n - 1 ==> p[i] == gs[i];
      }
      LayoutAscends(p);
      GroupLinesAscend(Layout(p), gs[n - 1], |Flat(p)| + 1);
    }
  }

  // ---------------------------------------------------------------------
  // The text of the listing
  // ---------------------------------------------------------------------

  /** The f-strings of bot.py:158 and bot.py:161. */
  function RenderLine(l: Line): string {
    match l
    case Header(date) => "\n📅 " + date + ":"
    case Item(number, e) => "  " + NatToString(number) + ". Сессия " + e.time + " (" + FormatNotesCount(e.notes) + ")"
  }

  /** The lines `ls`, each rendered by `line`. */
  function Render(ls: seq<Line>, line: Line -> string): (r: seq<string>)
    ensures |r| == |ls|
  {
    if ls == [] then [] else Render(ls[..|ls| - 1], line) + [line(ls[|ls| - 1])]
  }

  lemma {:induction false} RenderAppend(a: seq<Line>, b: seq<Line>, line: Line -> string)
    ensures Render(a + b, line) == Render(a, line) + Render(b, line)
  {
    if b != [] {
      var n := |b|;
      RenderAppend(a, b[..n - 1], line);
      assert (a + b)[..|a| + n - 1] == a + b[..n - 1];
    } else {
      assert a + b == a;
    }
  }

  /** `"\n".join(xs)`. */
  function JoinLines(xs: seq<string>): string {
    if xs == [] then ""
    else if |xs| == 1 then xs[0]
    else JoinLines(xs[..|xs| - 1]) + "\n" + xs[|xs| - 1]
  }

  // ---------------------------------------------------------------------
  // The listing
  // ---------------------------------------------------------------------

  /** The dates with their sorted sessions, in the order they are listed. */
  function ListedGroups(ss: seq<Artifact>): seq<DateGroup> {
    SortByDateDesc(SortEach(GroupByDate(ss)))
  }

  /** What bot.py:130-164 produces for the sessions `ss` the query returned. */
  function ListingOf(ss: seq<Artifact>): Listing {
    if ss == [] then NoData
    else if !AllDateTexts(SortEach(GroupByDate(ss))) then LoadError
    else Listed(JoinLines(FileLines(ListedGroups(ss), RenderLine)), SumNotes(ss), FormatNotesCount(SumNotes(ss)))
  }

  lemma {:induction false} GroupByDateStep(ss: seq<Artifact>, i: nat)
    requires i < |ss|
    ensures GroupByDate(ss[..i + 1]) == AddEntry(GroupByDate(ss[..i]), ss[i].date, EntryOf(ss[i]))
  {
    assert ss[..i + 1][..i] == ss[..i];
  }

  /** The loop of bot.py:139-145: each session appended to the list of its
      date in a `defaultdict(list)`. */
  method CollectByDate(sessions: seq<Artifact>) returns (dateSessions: seq<DateGroup>)
    ensures dateSessions == GroupByDate(sessions)
  {
    dateSessions := [];
    for i := 0 to |sessions|
      invariant dateSessions == GroupByDate(sessions[..i])
    {
      var s := sessions[i];
      var entry := Entry(s.time, s.notesCount, s.name, s.track);
      GroupByDateStep(sessions, i);
      match DateIndex(dateSessions, s.date)
      case None =>
        dateSessions := dateSessions + [DateGroup(s.date, [entry])];
      case Some(j) =>
        dateSessions := dateSessions[j := DateGroup(s.date, dateSessions[j].entries + [entry])];
    }
    assert sessions[..|sessions|] == sessions;
  }

  /** The loop of bot.py:148-149: every list of the dict sorted by time. */
  method SortWithinDates(grouped: seq<DateGroup>) returns (dateSessions: seq<DateGroup>)
    ensures dateSessions == SortEach(grouped)
  {
    dateSessions := grouped;
    for j := 0 to |dateSessions|
      invariant |grouped| == |dateSessions|
      invariant dateSessions == SortEach(grouped[..j]) + grouped[j..]
    {
      SortEachStep(grouped, j);
      dateSessions := dateSessions[j := SortGroup(dateSessions[j])];
    }
    assert grouped[..|grouped|] == grouped;
  }

  /** The session lines of entries `es`, numbered from `first`, each
      rendered by `line`. */
  function ItemTexts(es: seq<Entry>, first: nat, line: Line -> string): (r: seq<string>)
    ensures |r| == |es|
  {
    if es == [] then [] else ItemTexts(es[..|es| - 1], first, line) + [line(Item(first + |es| - 1, es[|es| - 1]))]
  }

  /** `file_list` after the dates `gs`, each line rendered by `line`. */
  function FileLines(gs: seq<DateGroup>, line: Line -> string): seq<string> {
    if gs == [] then []
    else var p := gs[..|gs| - 1];
      FileLines(p, line) + [line(Header(gs[|gs| - 1].date))] + ItemTexts(gs[|gs| - 1].entries, |Flat(p)| + 1, line)
  }

  lemma {:induction false} ItemTextsSnoc(es: seq<Entry>, first: nat, k: nat, line: Line -> string)
    requires k < |es|
    ensures ItemTexts(es[..k + 1], first, line) == ItemTexts(es[..k], first, line) + [line(Item(first + k, es[k]))]
  {
    assert es[..k + 1][..k] == es[..k];
  }

  lemma {:induction false} FileLinesStep(ordered: seq<DateGroup>, i: nat, line: Line -> string,
                                         before: seq<string>, start: nat, after: seq<string>)
    requires i < |ordered|
    requires before == FileLines(ordered[..i], line) + [line(Header(ordered[i].date))]
    requires start == |Flat(ordered[..i])| + 1
    requires after == before + ItemTexts(ordered[i].entries, start, line)
    ensures after == FileLines(ordered[..i + 1], line)
    ensures start + |ordered[i].entries| == |Flat(ordered[..i + 1])| + 1
  {
    assert ordered[..i + 1][..i] == ordered[..i];
    FlatPrefix(ordered, i);
  }

  lemma {:induction false} ItemTextsRender(es: seq<Entry>, first: nat, line: Line -> string)
    ensures ItemTexts(es, first, line) == Render(ItemLines(es, first), line)
  {
    if es != [] {
      var n := |es|;
      ItemTextsRender(es[..n - 1], first, line);
      RenderAppend(ItemLines(es[..n - 1], first), [Item(first + n - 1, es[n - 1])], line);
      assert Render([Item(first + n - 1, es[n - 1])], line) == [line(Item(first + n - 1, es[n - 1]))] by {
        assert [Item(first + n - 1, es[n - 1])][..0] == [];
      }
    }
  }

  lemma {:induction false} GroupTextsRender(g: DateGroup, first: nat, line: Line -> string)
    ensures [line(Header(g.date))] + ItemTexts(g.entries, first, line) == Render(GroupLines(g, first), line)
  {
    ItemTextsRender(g.entries, first, line);
    RenderAppend([Header(g.date)], ItemLines(g.entries, first), line);
    assert Render([Header(g.date)], line) == [line(Header(g.date))] by {
      assert [Header(g.date)][..0] == [];
    }
  }

  /** `file_list` is the listing's lines, one string per line, in order. */
  lemma {:induction false} FileLinesRender(gs: seq<DateGroup>, line: Line -> string)
    ensures FileLines(gs, line) == Render(Layout(gs), line)
  {
    if gs != [] {
      var n := |gs|;
      var p, g := gs[..n - 1], gs[n - 1];
      var first := |Flat(p)| + 1;
      FileLinesRender(p, line);
      GroupTextsRender(g, first, line);
      RenderAppend(Layout(p), GroupLines(g, first), line);
      assert Layout(gs) == Layout(p) + GroupLines(g, first);
      assert FileLines(gs, line) == FileLines(p, line) + ([line(Header(g.date))] + ItemTexts(g.entries, first, line));
    }
  }

  /** The nested loops of bot.py:152-161: a heading per date and a line per
      session, `current_number` running on across the dates; `line` is the
      f-string that renders one line. */
  method FileList(ordered: seq<DateGroup>, line: Line -> string) returns (fileList: seq<string>)
    ensures fileList == FileLines(ordered, line)
  {
    fileList := [];
    var currentNumber := 1;
    for i := 0 to |ordered|
      invariant fileList == FileLines(ordered[..i], line)
      invariant currentNumber == |Flat(ordered[..i])| + 1
    {
      var g := ordered[i];
      fileList := fileList + [line(Header(g.date))];
      ghost var before, start := fileList, currentNumber;
      fileList, currentNumber := AppendSessions(fileList, g.entries, currentNumber, line);
      FileLinesStep(ordered, i, line, before, start, fileList);
    }
    assert ordered[..|ordered|] == ordered;
  }

  /** The inner loop of bot.py:159-162: one numbered line per session of a
      date, the number running on from `currentNumber`. */
  method AppendSessions(fileList: seq<string>, sessions: seq<Entry>, currentNumber: nat, line: Line -> string)
    returns (extended: seq<string>, nextNumber: nat)
    ensures extended == fileList + ItemTexts(sessions, currentNumber, line)
    ensures nextNumber == currentNumber + |sessions|
  {
    extended, nextNumber := fileList, currentNumber;
    for k := 0 to |sessions|
      invariant extended == fileList + ItemTexts(sessions[..k], currentNumber, line)
      invariant nextNumber == currentNumber + k
    {
      var session := sessions[k];
      ItemTextsSnoc(sessions, currentNumber, k, line);
      extended := extended + [line(Item(nextNumber, session))];
      nextNumber := nextNumber + 1;
    }
    assert sessions[..|sessions|] == sessions;
  }

  /** `send_midi_files` (bot.py:125-164) on the sessions the query returned,
      up to the text of the reply. */
  method SendMidiFiles(sessions: seq<Artifact>) returns (listing: Listing)
    ensures listing == ListingOf(sessions)
  {
    if |sessions| == 0 {
      return NoData;
    }
    var totalNotes := SumNotes(sessions);
    var dateSessions := CollectByDate(sessions);
    dateSessions := SortWithinDates(dateSessions);
    if !AllDateTexts(dateSessions) {
      return LoadError;
    }
    var ordered := SortByDateDesc(dateSessions);
    var fileList := FileList(ordered, RenderLine);
    var fileListText := JoinLines(fileList);
    var totalNotesText := FormatNotesCount(totalNotes);
    return Listed(fileListText, totalNotes, totalNotesText);
  }

  // ---------------------------------------------------------------------
  // What the listing shows
  // ---------------------------------------------------------------------

  /** The dict after sorting: distinct dates, each holding the sessions of
      that date sorted by time, every session's date present. */
  lemma {:induction false} SortedDictSpec(ss: seq<Artifact>)
    ensures var d := SortEach(GroupByDate(ss));
      && DistinctDates(d)
      && (forall i :: 0 <= i < |d| ==> d[i].entries == SortByTime(EntriesOn(ss, d[i].date)))
      && (forall k :: 0 <= k < |ss| ==> exists i :: 0 <= i < |d| && d[i].date == ss[k].date)
  {
    var gs := GroupByDate(ss);
    GroupByDateSpec(ss);
    SortEachDates(gs);
  }

  /** Every listed date is a group of the sorted dict. */
  lemma {:induction false} ListedFromDict(ss: seq<Artifact>, i: nat)
    requires i < |ListedGroups(ss)|
    ensures ListedGroups(ss)[i] in SortEach(GroupByDate(ss))
  {
    var d := SortEach(GroupByDate(ss));
    SortByDateDescPermutes(d);
    assert ListedGroups(ss)[i] in multiset(ListedGroups(ss));
  }

  /** Every group of the sorted dict is listed. */
  lemma {:induction false} DictListed(ss: seq<Artifact>, i: nat)
    requires i < |SortEach(GroupByDate(ss))|
    ensures SortEach(GroupByDate(ss))[i] in ListedGroups(ss)
  {
    var d := SortEach(GroupByDate(ss));
    SortByDateDescPermutes(d);
    assert d[i] in multiset(d);
  }

  /** The listed entries are the sessions, each exactly once. */
  lemma {:induction false} ListedPermutes(ss: seq<Artifact>)
    ensures multiset(Flat(ListedGroups(ss))) == multiset(Entries(ss))
    ensures |Flat(ListedGroups(ss))| == |ss|
  {
    var gs := GroupByDate(ss);
    var d := SortEach(gs);
    var shown := Flat(SortByDateDesc(d));
    SortByDateDescPermutes(d);
    SortEachPermutes(gs);
    GroupByDatePermutes(ss);
    var a, b, c := multiset(shown), multiset(Flat(d)), multiset(Flat(gs));
    assert a == b && b == c && c == multiset(Entries(ss));
    assert |shown| == |a| && |Entries(ss)| == |multiset(Entries(ss))|;
  }

  /**
   * The sessions are numbered 1, 2, ..., n down the listing with no gap,
   * every session appears exactly once, and the total is the sum of the
   * note counts the numbered lines show.
   */
  lemma {:induction false} ListingNumbers(ss: seq<Artifact>)
    ensures var items, shown := ItemsOf(Layout(ListedGroups(ss))), Flat(ListedGroups(ss));
      && |items| == |ss| && |shown| == |ss|
      && (forall k :: 0 <= k < |items| ==> items[k] == Item(k + 1, shown[k]))
      && multiset(shown) == multiset(Entries(ss))
      && SumNotes(ss) == EntryNotes(shown)
  {
    var shown := Flat(ListedGroups(ss));
    LayoutItems(ListedGroups(ss));
    ListedPermutes(ss);
    forall k | 0 <= k < |shown| ensures ItemsOf(Layout(ListedGroups(ss)))[k] == Item(k + 1, shown[k]) {
      ItemLinesAt(shown, 1, k);
    }
    SumNotesEntries(ss);
    EntryNotesPermutation(shown, Entries(ss));
  }

  /**
   * When every date is accepted: one heading per date, the dates strictly
   * newest first, each date heading exactly the sessions of that date in
   * ascending time, and every session's date among the headings.
   */
  lemma {:induction false} ListingDates(ss: seq<Artifact>)
    requires SessionDatesAccepted(ss)
    ensures var gs := ListedGroups(ss);
      && HeadersOf(Layout(gs)) == DateHeaders(gs)
      && DatesDescend(gs)
      && (forall i :: 0 <= i < |gs| ==> gs[i].entries == SortByTime(EntriesOn(ss, gs[i].date)))
      && (forall k :: 0 <= k < |ss| ==> exists i :: 0 <= i < |gs| && gs[i].date == ss[k].date)
  {
    var d := SortEach(GroupByDate(ss));
    var gs := ListedGroups(ss);
    LayoutHeaders(gs);
    SortedDictSpec(ss);
    GroupByDateTexts(ss);
    SortEachDates(GroupByDate(ss));
    SortByDateDescDescends(d);
    forall i | 0 <= i < |gs| ensures gs[i].entries == SortByTime(EntriesOn(ss, gs[i].date)) {
      ListedFromDict(ss, i);
    }
    forall k | 0 <= k < |ss| ensures exists i :: 0 <= i < |gs| && gs[i].date == ss[k].date {
      var j :| 0 <= j < |d| && d[j].date == ss[k].date;
      DictListed(ss, j);
    }
  }

  /** Inside each date, the times of consecutive numbered lines ascend. */
  lemma {:induction false} ListingTimes(ss: seq<Artifact>)
    ensures AdjacentItemsAscend(Layout(ListedGroups(ss)))
  {
    var d := SortEach(GroupByDate(ss));
    SortEachAscends(GroupByDate(ss));
    SortByDateDescPermutes(d);
    AscendsPermuted(ListedGroups(ss), d);
    LayoutAscends(ListedGroups(ss));
  }

  lemma {:induction false} SortEachAscends(gs: seq<DateGroup>)
    ensures AllTimesAscend(SortEach(gs))
  {
    forall i | 0 <= i < |gs| ensures TimesAscend(SortEach(gs)[i].entries) {
      SortEachAt(gs, i);
      SortByTimeSpec(gs[i].entries);
    }
  }

  lemma {:induction false} AscendsPermuted(a: seq<DateGroup>, b: seq<DateGroup>)
    requires multiset(a) == multiset(b) && AllTimesAscend(b)
    ensures AllTimesAscend(a)
  {
    forall i | 0 <= i < |a| ensures TimesAscend(a[i].entries) {
      assert a[i] in multiset(b);
    }
  }

  /**
   * The reply: "no data" exactly for no sessions, the error exactly when
   * some session's date is not accepted, and otherwise the lines of the
   * listing joined by newlines with the total and its wording.
   */
  lemma {:induction false} ListingOutcome(ss: seq<Artifact>)
    ensures ListingOf(ss).NoData? <==> ss == []
    ensures ListingOf(ss).LoadError? <==> ss != [] && !SessionDatesAccepted(ss)
    ensures ListingOf(ss).Listed? ==>
      && ListingOf(ss).text == JoinLines(Render(Layout(ListedGroups(ss)), RenderLine))
      && ListingOf(ss).totalNotes == SumNotes(ss)
      && ListingOf(ss).totalText == FormatNotesCount(SumNotes(ss))
  {
    GroupByDateTexts(ss);
    SortEachDates(GroupByDate(ss));
    FileLinesRender(ListedGroups(ss), RenderLine);
  }

  /** The sessions `get_midi_logs` builds from well-formed rows always have
      dates `strptime` accepts: the listing never takes the error path. */
  lemma {:induction false} MidiLogsAccepted(rows: seq<Row>, inputName: Option<string>)
    requires forall i :: 0 <= i < |rows| ==> ValidTimestamp(rows[i].at)
    ensures SessionDatesAccepted(MidiLogs(rows, inputName))
  {
    var gs := Segment(rows);
    forall k | 0 <= k < |gs| ensures DateText(MidiLogs(rows, inputName)[k].date) {
      ArtifactsAt(gs, inputName, k);
      SegmentStartIsRow(rows, k);
      FormatDateAccepted(gs[k].startTime.civil);
    }
  }
}
