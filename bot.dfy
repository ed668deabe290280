/**
 * The pure helpers of the Telegram bot (bot.py): the Russian note-count
 * text, file-name sanitising, the period buttons, the device-number check
 * of /play and the re-accumulation of delta times read back from a track.
 */
module Bot {
  import opened Text
  import opened DataEngine

  // ---------------------------------------------------------------------
  // format_notes_count (bot.py:103-122)
  // ---------------------------------------------------------------------

  /** The noun chosen for a count, from `n % 10` and `n % 100`. Python's `%`
      with a positive divisor is never negative, as Dafny's is. */
  function PluralWord(n: int): string {
    var lastDigit := n % 10;
    var lastTwoDigits := n % 100;
    if 11 <= lastTwoDigits <= 19 then "нот"
    else if lastDigit == 1 then "нота"
    else if 2 <= lastDigit <= 4 then "ноты"
    else "нот"
  }

  lemma {:induction false} LastDigitOfLastTwo(n: int)
    ensures (n % 100) % 10 == n % 10
  {
    var q, r := n / 100, n % 100;
    assert n == 100 * q + r;
    var q', r' := r / 10, r % 10;
    assert r == 10 * q' + r';
    assert n == 10 * (10 * q + q') + r';
  }

  /** The word agrees with the usual Russian rule: "нота" after a number
      ending in 1 but not in 11, "ноты" after one ending in 2, 3 or 4 but not
      in 12, 13 or 14, and "нот" after every other; the code's wider 11..19
      exception changes nothing, since 15..19 take "нот" anyway. */
  lemma {:induction false} PluralWordRule(n: int)
    ensures PluralWord(n) == "нота" <==> n % 10 == 1 && n % 100 != 11
    ensures PluralWord(n) == "ноты" <==> 2 <= n % 10 <= 4 && !(12 <= n % 100 <= 14)
    ensures PluralWord(n) == "нот" <==>
      !(n % 10 == 1 && n % 100 != 11) && !(2 <= n % 10 <= 4 && !(12 <= n % 100 <= 14))
  {
    LastDigitOfLastTwo(n);
    assert "нота" != "ноты" && "нота" != "нот" && "ноты" != "нот";
  }

  /** The digits of `s` in groups of three from the right, the groups
      separated by `sep` (the `,` of Python's `"{:,}"` format). */
  function Grouped(s: string, sep: char): string
    decreases |s|
  {
    if |s| <= 3 then s else Grouped(s[..|s| - 3], sep) + [sep] + s[|s| - 3..]
  }

  /** `str.replace(a, b)` for single characters. */
  function ReplaceChar(s: string, a: char, b: char): (r: string)
    ensures |r| == |s|
  {
    if s == [] then [] else ReplaceChar(s[..|s| - 1], a, b) + [if s[|s| - 1] == a then b else s[|s| - 1]]
  }

  /** `s` with every occurrence of `c` removed. */
  function RemoveChar(s: string, c: char): string {
    if s == [] then []
    else RemoveChar(s[..|s| - 1], c) + (if s[|s| - 1] == c then [] else [s[|s| - 1]])
  }

  function Abs(n: int): nat {
    if n < 0 then -n else n
  }

  function SignText(n: int): string {
    if n < 0 then "-" else ""
  }

  /** Python's `str(n)` for any integer. */
  function IntToString(n: int): string {
    SignText(n) + NatToString(Abs(n))
  }

  /** `"{:,}".format(n)`: the sign, then the grouped digits of |n|. */
  function CommaFormat(n: int): string {
    SignText(n) + Grouped(NatToString(Abs(n)), ',')
  }

  /** `"{:,}".format(notes).replace(",", " ")`. */
  function FormatNumber(n: int): string {
    ReplaceChar(CommaFormat(n), ',', ' ')
  }

  /** `format_notes_count` for an integer argument. */
  function FormatNotesCount(n: int): string {
    FormatNumber(n) + " " + PluralWord(n)
  }

  lemma {:induction false} RemoveCharAppend(a: string, b: string, c: char)
    ensures RemoveChar(a + b, c) == RemoveChar(a, c) + RemoveChar(b, c)
  {
    if b == [] {
      assert a + b == a;
    } else {
      assert (a + b)[..|a + b| - 1] == a + b[..|b| - 1];
      RemoveCharAppend(a, b[..|b| - 1], c);
    }
  }

  lemma {:induction false} RemoveCharDigits(s: string, c: char)
    requires AllDigits(s) && !IsDigit(c)
    ensures RemoveChar(s, c) == s
  {
    if s != [] {
      AllDigitsPrefix(s, |s| - 1);
      RemoveCharDigits(s[..|s| - 1], c);
    }
  }

  lemma {:induction false} ReplaceCharAppend(a: string, b: string, x: char, y: char)
    ensures ReplaceChar(a + b, x, y) == ReplaceChar(a, x, y) + ReplaceChar(b, x, y)
  {
    if b == [] {
      assert a + b == a;
    } else {
      assert (a + b)[..|a + b| - 1] == a + b[..|b| - 1];
      ReplaceCharAppend(a, b[..|b| - 1], x, y);
    }
  }

  lemma {:induction false} ReplaceCharDigits(s: string, x: char, y: char)
    requires AllDigits(s) && !IsDigit(x)
    ensures ReplaceChar(s, x, y) == s
  {
    if s != [] {
      AllDigitsPrefix(s, |s| - 1);
      ReplaceCharDigits(s[..|s| - 1], x, y);
    }
  }

  lemma {:induction false} AllDigitsSplit(s: string, k: nat)
    requires AllDigits(s) && k <= |s|
    ensures AllDigits(s[..k]) && AllDigits(s[k..])
  {
    AllDigitsPrefix(s, k);
    assert forall i :: 0 <= i < |s| - k ==> s[k..][i] == s[k + i];
  }

  lemma {:induction false} GroupedUnfold(s: string, sep: char)
    requires |s| > 3
    ensures Grouped(s, sep) == Grouped(s[..|s| - 3], sep) + [sep] + s[|s| - 3..]
  {
  }

  lemma {:induction false} ReplaceAtSeparator(a: string, t: string)
    ensures ReplaceChar(a + [','] + t, ',', ' ') == ReplaceChar(a, ',', ' ') + [' '] + ReplaceChar(t, ',', ' ')
  {
    ReplaceCharAppend(a + [','], t, ',', ' ');
    ReplaceCharAppend(a, [','], ',', ' ');
    assert [','][..0] == [];
  }

  lemma {:induction false} RemoveAtSeparator(a: string, sep: char, t: string)
    ensures RemoveChar(a + [sep] + t, sep) == RemoveChar(a, sep) + RemoveChar(t, sep)
  {
    RemoveCharAppend(a + [sep], t, sep);
    RemoveCharAppend(a, [sep], sep);
    assert [sep][..0] == [];
  }

  /** Grouping with ',' and then replacing ',' by ' ' is grouping with ' '. */
  lemma {:induction false} ReplaceGrouped(s: string)
    requires AllDigits(s)
    ensures ReplaceChar(Grouped(s, ','), ',', ' ') == Grouped(s, ' ')
  {
    if |s| <= 3 {
      ReplaceCharDigits(s, ',', ' ');
    } else {
      var p, t := s[..|s| - 3], s[|s| - 3..];
      AllDigitsSplit(s, |s| - 3);
      ReplaceGrouped(p);
      ReplaceCharDigits(t, ',', ' ');
      GroupedUnfold(s, ',');
      GroupedUnfold(s, ' ');
      ReplaceAtSeparator(Grouped(p, ','), t);
    }
  }

  /** Removing the separators from grouped digits gives the digits back. */
  lemma {:induction false} GroupedUngroups(s: string, sep: char)
    requires AllDigits(s) && !IsDigit(sep)
    ensures RemoveChar(Grouped(s, sep), sep) == s
  {
    if |s| <= 3 {
      RemoveCharDigits(s, sep);
    } else {
      var p, t := s[..|s| - 3], s[|s| - 3..];
      AllDigitsSplit(s, |s| - 3);
      GroupedUngroups(p, sep);
      RemoveCharDigits(t, sep);
      GroupedUnfold(s, sep);
      calc {
        RemoveChar(Grouped(s, sep), sep);
        RemoveChar(Grouped(p, sep) + [sep] + t, sep);
        { RemoveAtSeparator(Grouped(p, sep), sep, t); }
        RemoveChar(Grouped(p, sep), sep) + RemoveChar(t, sep);
        p + t;
        { assert p + t == s; }
        s;
      }
    }
  }

  /** Grouping adds one separator per full group of three after the first
      digit, so the length is never a multiple of four. */
  lemma {:induction false} GroupedLength(s: string, sep: char)
    requires s != []
    ensures |Grouped(s, sep)| == |s| + (|s| - 1) / 3
    ensures |Grouped(s, sep)| % 4 != 0
  {
    if |s| > 3 {
      GroupedLength(s[..|s| - 3], sep);
      GroupedUnfold(s, sep);
    }
  }

  /** One grouping step, `e == gp + [sep] + t`, keeps the separator
      positions counted from the end. */
  lemma {:induction false} SeparatorStep(gp: string, sep: char, t: string, i: nat)
    requires |t| == 3 && AllDigits(t) && !IsDigit(sep)
    requires i < |gp| + 4
    requires i < |gp| ==> (gp[i] == sep <==> (|gp| - i) % 4 == 0) && (gp[i] != sep ==> IsDigit(gp[i]))
    ensures var e := gp + [sep] + t; (e[i] == sep <==> (|e| - i) % 4 == 0) && (e[i] != sep ==> IsDigit(e[i]))
  {
    var e := gp + [sep] + t;
    if i < |gp| {
      assert e[i] == gp[i];
      assert |e| - i == (|gp| - i) + 4;
    } else if i > |gp| {
      assert e[i] == t[i - |gp| - 1];
    }
  }

  lemma {:induction false} GroupedAt(s: string, sep: char, i: nat)
    requires s != [] && AllDigits(s) && !IsDigit(sep)
    requires i < |Grouped(s, sep)|
    ensures var g := Grouped(s, sep); (g[i] == sep <==> (|g| - i) % 4 == 0) && (g[i] != sep ==> IsDigit(g[i]))
  {
    if |s| > 3 {
      var p, t := s[..|s| - 3], s[|s| - 3..];
      AllDigitsSplit(s, |s| - 3);
      GroupedUnfold(s, sep);
      if i < |Grouped(p, sep)| {
        GroupedAt(p, sep, i);
      }
      SeparatorStep(Grouped(p, sep), sep, t, i);
    } else {
      GroupedLength(s, sep);
      assert Grouped(s, sep) == s;
    }
  }

  /** In grouped digits a separator stands exactly where the number of
      characters from it to the end is a multiple of four, so every group
      after the first has three digits and the first has one to three. */
  lemma {:induction false} GroupedSeparators(s: string, sep: char)
    requires s != [] && AllDigits(s) && !IsDigit(sep)
    ensures var g := Grouped(s, sep);
      && |g| % 4 != 0
      && (forall i :: 0 <= i < |g| ==> (g[i] == sep <==> (|g| - i) % 4 == 0))
      && (forall i :: 0 <= i < |g| ==> g[i] != sep ==> IsDigit(g[i]))
  {
    GroupedLength(s, sep);
    forall i | 0 <= i < |Grouped(s, sep)|
      ensures var g := Grouped(s, sep); (g[i] == sep <==> (|g| - i) % 4 == 0) && (g[i] != sep ==> IsDigit(g[i]))
    {
      GroupedAt(s, sep, i);
    }
  }

  lemma {:induction false} SignTextUnchanged(n: int)
    ensures ReplaceChar(SignText(n), ',', ' ') == SignText(n)
    ensures RemoveChar(SignText(n), ' ') == SignText(n)
  {
    if n < 0 {
      assert "-"[..0] == [];
    }
  }

  lemma {:induction false} FormatNumberGrouped(n: int)
    ensures FormatNumber(n) == SignText(n) + Grouped(NatToString(Abs(n)), ' ')
  {
    var d := NatToString(Abs(n));
    ReplaceCharAppend(SignText(n), Grouped(d, ','), ',', ' ');
    SignTextUnchanged(n);
    ReplaceGrouped(d);
  }

  lemma {:induction false} FormatNumberUngroups(n: int)
    ensures RemoveChar(FormatNumber(n), ' ') == IntToString(n)
  {
    var d := NatToString(Abs(n));
    FormatNumberGrouped(n);
    RemoveCharAppend(SignText(n), Grouped(d, ' '), ' ');
    SignTextUnchanged(n);
    GroupedUngroups(d, ' ');
  }

  /** The number text is the sign followed by the digits of |n| grouped in
      threes with spaces; removing the spaces gives Python's `str(n)`. */
  lemma {:induction false} FormatNumberShape(n: int)
    ensures var g := Grouped(NatToString(Abs(n)), ' ');
      && FormatNumber(n) == SignText(n) + g
      && RemoveChar(FormatNumber(n), ' ') == IntToString(n)
      && (forall i :: 0 <= i < |g| ==> (g[i] == ' ' <==> (|g| - i) % 4 == 0))
      && (forall i :: 0 <= i < |g| ==> g[i] != ' ' ==> IsDigit(g[i]))
  {
    FormatNumberGrouped(n);
    FormatNumberUngroups(n);
    GroupedSeparators(NatToString(Abs(n)), ' ');
  }

  // ---------------------------------------------------------------------
  // safe_filename (bot.py:198-201)
  // ---------------------------------------------------------------------

  /** A character the generator keeps: `c.isalnum() or c in keepchars`.
      Python's Unicode `str.isalnum` is a parameter. */
  predicate Kept(isAlnum: char -> bool, c: char) {
    isAlnum(c) || c == ' ' || c == '.' || c == '_' || c == '-'
  }

  /** `"".join(c for c in s if ...)`. */
  function KeepChars(isAlnum: char -> bool, s: string): string {
    if s == [] then []
    else KeepChars(isAlnum, s[..|s| - 1]) + (if Kept(isAlnum, s[|s| - 1]) then [s[|s| - 1]] else [])
  }

  /** `str.rstrip()`: drops trailing whitespace; Python's `str.isspace` is a
      parameter. */
  function RStrip(isSpace: char -> bool, s: string): string {
    if s != [] && isSpace(s[|s| - 1]) then RStrip(isSpace, s[..|s| - 1]) else s
  }

  function SafeFilename(isAlnum: char -> bool, isSpace: char -> bool, s: string): string {
    RStrip(isSpace, KeepChars(isAlnum, s))
  }

  /** `a` is `b` with some characters deleted: `idx` picks, in increasing
      order, the position in `b` of each character of `a`. */
  predicate Embedding(idx: seq<nat>, a: string, b: string) {
    && |idx| == |a|
    && (forall i :: 0 <= i < |idx| ==> idx[i] < |b| && a[i] == b[idx[i]])
    && (forall i, j :: 0 <= i < j < |idx| ==> idx[i] < idx[j])
  }

  ghost predicate IsSubsequence(a: string, b: string) {
    exists idx :: Embedding(idx, a, b)
  }

  lemma {:induction false} KeepCharsEmbedding(isAlnum: char -> bool, s: string) returns (idx: seq<nat>)
    ensures Embedding(idx, KeepChars(isAlnum, s), s)
  {
    if s == [] {
      idx := [];
    } else {
      var p := s[..|s| - 1];
      var ip := KeepCharsEmbedding(isAlnum, p);
      var kp := KeepChars(isAlnum, p);
      if Kept(isAlnum, s[|s| - 1]) {
        idx := ip + [|s| - 1];
        var k := KeepChars(isAlnum, s);
        assert k == kp + [s[|s| - 1]];
        forall i | 0 <= i < |idx| ensures idx[i] < |s| && k[i] == s[idx[i]] {
          if i < |ip| {
            assert idx[i] == ip[i] && k[i] == kp[i] && p[ip[i]] == s[ip[i]];
          }
        }
      } else {
        idx := ip;
        assert KeepChars(isAlnum, s) == kp;
        forall i | 0 <= i < |idx| ensures idx[i] < |s| && kp[i] == s[idx[i]] {
          assert p[ip[i]] == s[ip[i]];
        }
      }
    }
  }

  lemma {:induction false} RStripPrefix(isSpace: char -> bool, s: string)
    ensures |RStrip(isSpace, s)| <= |s| && RStrip(isSpace, s) == s[..|RStrip(isSpace, s)|]
  {
    if s != [] && isSpace(s[|s| - 1]) {
      RStripPrefix(isSpace, s[..|s| - 1]);
    }
  }

  lemma {:induction false} KeepCharsAllKept(isAlnum: char -> bool, s: string)
    ensures forall i :: 0 <= i < |KeepChars(isAlnum, s)| ==> Kept(isAlnum, KeepChars(isAlnum, s)[i])
  {
    if s != [] {
      KeepCharsAllKept(isAlnum, s[..|s| - 1]);
    }
  }

  lemma {:induction false} KeepCharsIdentity(isAlnum: char -> bool, s: string)
    requires forall i :: 0 <= i < |s| ==> Kept(isAlnum, s[i])
    ensures KeepChars(isAlnum, s) == s
  {
    if s != [] {
      KeepCharsIdentity(isAlnum, s[..|s| - 1]);
    }
  }

  /** Every character of the result is alphanumeric or one of ' ', '.', '_',
      '-'; the result keeps the input's characters in their order, and it does
      not end in whitespace. */
  lemma {:induction false} SafeFilenameShape(isAlnum: char -> bool, isSpace: char -> bool, s: string)
    ensures var r := SafeFilename(isAlnum, isSpace, s);
      && (forall i :: 0 <= i < |r| ==> Kept(isAlnum, r[i]))
      && IsSubsequence(r, s)
      && (r == [] || !isSpace(r[|r| - 1]))
  {
    var k := KeepChars(isAlnum, s);
    var r := RStrip(isSpace, k);
    var idx := KeepCharsEmbedding(isAlnum, s);
    RStripPrefix(isSpace, k);
    KeepCharsAllKept(isAlnum, s);
    assert Embedding(idx[..|r|], r, s) by {
      forall i | 0 <= i < |r| ensures idx[..|r|][i] < |s| && r[i] == s[idx[..|r|][i]] {
        assert r[i] == k[i];
      }
    }
    forall i | 0 <= i < |r| ensures Kept(isAlnum, r[i]) {
      assert r[i] == k[i];
    }
    StripEnds(isSpace, k);
  }

  lemma {:induction false} StripEnds(isSpace: char -> bool, s: string)
    ensures RStrip(isSpace, s) == [] || !isSpace(RStrip(isSpace, s)[|RStrip(isSpace, s)| - 1])
  {
    if s != [] && isSpace(s[|s| - 1]) {
      StripEnds(isSpace, s[..|s| - 1]);
    }
  }

  /** Sanitising an already sanitised name changes nothing. */
  lemma {:induction false} SafeFilenameIdempotent(isAlnum: char -> bool, isSpace: char -> bool, s: string)
    ensures SafeFilename(isAlnum, isSpace, SafeFilename(isAlnum, isSpace, s)) == SafeFilename(isAlnum, isSpace, s)
  {
    var r := SafeFilename(isAlnum, isSpace, s);
    SafeFilenameShape(isAlnum, isSpace, s);
    KeepCharsIdentity(isAlnum, r);
  }

  // ---------------------------------------------------------------------
  // The period buttons (bot.py:56-64, 88-93)
  // ---------------------------------------------------------------------

  /** The text before the first '_' (all of it when there is none). */
  function FirstField(s: string): string {
    if s == [] || s[0] == '_' then [] else [s[0]] + FirstField(s[1..])
  }

  /** `s.split('_')[1]`: the text between the first and the second '_'. */
  function SecondField(s: string): string
    requires '_' in s
  {
    if s[0] == '_' then FirstField(s[1..]) else SecondField(s[1..])
  }

  /** The days for a period name: the dict lookup with default 1. */
  function PeriodDays(period: string): (days: nat)
    ensures days == 0 <==> period == "all"
    ensures days == 7 <==> period == "week"
    ensures days == 1 <==> period != "all" && period != "week"
  {
    if period == "today" then 1
    else if period == "week" then 7
    else if period == "all" then 0
    else 1
  }

  /** The days `process_callback` asks for; the handler only receives data
      that starts with "period_". */
  function CallbackDays(data: string): nat
    requires |data| >= 7 && data[..7] == "period_"
  {
    assert data[6] == '_';
    PeriodDays(SecondField(data))
  }

  lemma {:induction false} FirstFieldOf(p: string, rest: string)
    requires '_' !in p
    requires rest == [] || rest[0] == '_'
    ensures FirstField(p + rest) == p
  {
    if p != [] {
      assert (p + rest)[1..] == p[1..] + rest;
      FirstFieldOf(p[1..], rest);
    } else {
      assert p + rest == rest;
    }
  }

  lemma {:induction false} SecondFieldSkip(x: string, s: string)
    requires '_' !in x && '_' in s
    ensures '_' in x + s && SecondField(x + s) == SecondField(s)
  {
    if x == [] {
      assert x + s == s;
    } else {
      assert (x + s)[0] == x[0];
      assert (x + s)[1..] == x[1..] + s;
      SecondFieldSkip(x[1..], s);
    }
  }

  /** The period read from "period_" + p + rest is p, for a p without '_'
      and a rest that is empty or starts a further field. */
  lemma {:induction false} CallbackPeriod(p: string, rest: string)
    requires '_' !in p
    requires rest == [] || rest[0] == '_'
    ensures var data := "period_" + p + rest; '_' in data && SecondField(data) == p
  {
    var tail := "_" + p + rest;
    assert tail[1..] == p + rest;
    FirstFieldOf(p, rest);
    SecondFieldSkip("period", tail);
    assert "period_" + p + rest == "period" + tail;
  }

  lemma {:induction false} ButtonDay(p: string)
    requires '_' !in p
    ensures var data := "period_" + p; |data| >= 7 && data[..7] == "period_" && CallbackDays(data) == PeriodDays(p)
  {
    CallbackPeriod(p, "");
    assert "period_" + p + "" == "period_" + p;
  }

  /** The callback data of the three keyboard buttons, "period_today",
      "period_week" and "period_all", ask for the same days as the commands
      /today, /week and /all (bot.py:205-217). */
  lemma {:induction false} ButtonDays()
    ensures CallbackDays("period_" + "today") == 1
    ensures CallbackDays("period_" + "week") == 7
    ensures CallbackDays("period_" + "all") == 0
  {
    ButtonDay("today");
    ButtonDay("week");
    ButtonDay("all");
  }

  // ---------------------------------------------------------------------
  // The device number of /play (bot.py:266-274) and /devices (bot.py:239-241)
  // ---------------------------------------------------------------------

  datatype PlayReply = NoDevices | BadNumber(available: nat) | PlayOn(port: string)

  /** The checks `play_handler` makes on an already parsed device number. */
  function ChooseDevice(devices: seq<string>, deviceNum: int): (r: PlayReply)
    ensures r.NoDevices? <==> devices == []
    ensures r.PlayOn? <==> devices != [] && 1 <= deviceNum <= |devices|
    ensures r.PlayOn? ==> r.port == devices[deviceNum - 1]
    ensures r.BadNumber? ==> r.available == |devices|
  {
    if devices == [] then NoDevices
    else if deviceNum < 1 || deviceNum > |devices| then BadNumber(|devices|)
    else PlayOn(devices[deviceNum - 1])
  }

  datatype DeviceLine = DeviceLine(number: nat, device: string)

  /** `for i, device in enumerate(output_devices, 1)`. */
  function DeviceLines(devices: seq<string>): (lines: seq<DeviceLine>)
    ensures |lines| == |devices|
  {
    if devices == [] then []
    else DeviceLines(devices[..|devices| - 1]) + [DeviceLine(|devices|, devices[|devices| - 1])]
  }

  /** The number /devices shows next to a device is the number /play takes
      to choose it. */
  lemma {:induction false} DeviceNumbering(devices: seq<string>, i: nat)
    requires i < |devices|
    ensures DeviceLines(devices)[i] == DeviceLine(i + 1, devices[i])
    ensures ChooseDevice(devices, DeviceLines(devices)[i].number) == PlayOn(devices[i])
  {
    if i < |devices| - 1 {
      var p := devices[..|devices| - 1];
      DeviceNumbering(p, i);
      assert p[i] == devices[i];
    }
  }

  // ---------------------------------------------------------------------
  // The cumulative-time loop of handle_visualize (bot.py:348-354)
  // ---------------------------------------------------------------------

  /** A message that is plotted: `note_on` with positive velocity. */
  predicate Sounding(m: Message) {
    m.kind == NoteOn && m.velocity > 0
  }

  /** The notes one track contributes. */
  function TrackNotes(track: seq<Message>): seq<int> {
    if track == [] then []
    else TrackNotes(track[..|track| - 1]) + (if Sounding(track[|track| - 1]) then [track[|track| - 1].note] else [])
  }

  /** The times one track contributes: the running sum of the `time` fields
      up to and including the sounding message, in ticks (the division by
      1000 into seconds is not modelled). */
  function TrackTimes(track: seq<Message>): seq<int> {
    if track == [] then []
    else TrackTimes(track[..|track| - 1]) + (if Sounding(track[|track| - 1]) then [SumTimes(track)] else [])
  }

  function AllNotes(tracks: seq<seq<Message>>): seq<int> {
    if tracks == [] then [] else AllNotes(tracks[..|tracks| - 1]) + TrackNotes(tracks[|tracks| - 1])
  }

  function AllTimes(tracks: seq<seq<Message>>): seq<int> {
    if tracks == [] then [] else AllTimes(tracks[..|tracks| - 1]) + TrackTimes(tracks[|tracks| - 1])
  }

  /** The number of sounding messages. */
  function CountSounding(track: seq<Message>): nat {
    if track == [] then 0
    else CountSounding(track[..|track| - 1]) + (if Sounding(track[|track| - 1]) then 1 else 0)
  }

  lemma {:induction false} TrackSnoc(track: seq<Message>, m: Message)
    ensures TrackNotes(track + [m]) == TrackNotes(track) + (if Sounding(m) then [m.note] else [])
    ensures TrackTimes(track + [m]) == TrackTimes(track) + (if Sounding(m) then [SumTimes(track) + m.time] else [])
  {
    assert (track + [m])[..|track|] == track;
  }

  lemma {:induction false} AllSnoc(tracks: seq<seq<Message>>, k: nat)
    requires k < |tracks|
    ensures AllNotes(tracks[..k + 1]) == AllNotes(tracks[..k]) + TrackNotes(tracks[k])
    ensures AllTimes(tracks[..k + 1]) == AllTimes(tracks[..k]) + TrackTimes(tracks[k])
  {
    assert tracks[..k + 1][..k] == tracks[..k];
  }

  /** The loop over the tracks, with `current_time` reset for each track. */
  method Visualize(tracks: seq<seq<Message>>) returns (notes: seq<int>, times: seq<int>)
    ensures notes == AllNotes(tracks) && times == AllTimes(tracks)
  {
    notes, times := [], [];
    for k := 0 to |tracks|
      invariant notes == AllNotes(tracks[..k]) && times == AllTimes(tracks[..k])
    {
      var track := tracks[k];
      var currentTime := 0;
      var trackNotes, trackTimes := [], [];
      for i := 0 to |track|
        invariant currentTime == SumTimes(track[..i])
        invariant trackNotes == TrackNotes(track[..i]) && trackTimes == TrackTimes(track[..i])
      {
        var msg := track[i];
        TrackSnoc(track[..i], msg);
        assert track[..i] + [msg] == track[..i + 1];
        currentTime := currentTime + msg.time;
        if msg.kind == NoteOn && msg.velocity > 0 {
          trackNotes := trackNotes + [msg.note];
          trackTimes := trackTimes + [currentTime];
        }
      }
      assert track[..|track|] == track;
      AllSnoc(tracks, k);
      notes := notes + trackNotes;
      times := times + trackTimes;
    }
    assert tracks[..|tracks|] == tracks;
  }

  /** Each track adds one note and one time per sounding message, so the
      two lists stay the same length. */
  lemma {:induction false} TrackPointsLength(track: seq<Message>)
    ensures |TrackNotes(track)| == |TrackTimes(track)| == CountSounding(track)
  {
    if track != [] {
      TrackPointsLength(track[..|track| - 1]);
    }
  }

  lemma {:induction false} AllPointsLength(tracks: seq<seq<Message>>)
    ensures |AllNotes(tracks)| == |AllTimes(tracks)|
  {
    if tracks != [] {
      AllPointsLength(tracks[..|tracks| - 1]);
      TrackPointsLength(tracks[|tracks| - 1]);
    }
  }

  /** With non-negative delta times (as a saved track has), the times of a
      track never decrease and never exceed the total time of the track. */
  lemma {:induction false} TrackTimesAscend(track: seq<Message>)
    requires forall i :: 0 <= i < |track| ==> track[i].time >= 0
    ensures forall j :: 0 <= j < |TrackTimes(track)| ==> 0 <= TrackTimes(track)[j] <= SumTimes(track)
    ensures forall j :: 0 < j < |TrackTimes(track)| ==> TrackTimes(track)[j - 1] <= TrackTimes(track)[j]
  {
    if track != [] {
      var p := track[..|track| - 1];
      TrackTimesAscend(p);
      assert SumTimes(track) == SumTimes(p) + track[|track| - 1].time;
      SumTimesNonNegative(p);
    }
  }

  lemma {:induction false} SumTimesNonNegative(track: seq<Message>)
    requires forall i :: 0 <= i < |track| ==> track[i].time >= 0
    ensures SumTimes(track) >= 0
  {
    if track != [] {
      SumTimesNonNegative(track[..|track| - 1]);
    }
  }

  /** A message counted as a note by data_engine.py is plotted only when its
      velocity is positive: for a session's track, the plot has as many
      notes as the note count exactly when no `note_on` has velocity 0 or
      less. */
  lemma {:induction false} PlottedNotes(ms: seq<Row>, start: Timestamp)
    ensures CountSounding(Retimed(ms, start)) <= CountNoteOn(ms)
    ensures CountSounding(Retimed(ms, start)) == CountNoteOn(ms) <==>
      forall i :: 0 <= i < |ms| ==> ms[i].message.kind == NoteOn ==> ms[i].message.velocity > 0
  {
    if ms != [] {
      var p := ms[..|ms| - 1];
      PlottedNotes(p, start);
      var t := Retimed(ms, start);
      assert t[..|t| - 1] == Retimed(p, start);
      assert forall i :: 0 <= i < |p| ==> p[i] == ms[i];
    }
  }
}
