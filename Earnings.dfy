/**
 * The /earnings command: the text digest of upcoming earnings, and how the
 * handler turns a fetch outcome and a render outcome into a response.
 */
module Earnings {
  import opened Wrappers
  import opened Text
  import opened Dates

  datatype EarningsEvent = EarningsEvent(
    symbol: string,
    date: NaiveDate,
    timeOfDay: Option<string>,
    emoji: Option<string>,
    importance: Option<int>)

  /** At most this many events are listed in a digest. */
  const MaxListed: nat := 50
  /** A digest longer than this many bytes is cut for the text fallback. */
  const TextBudget: nat := 1900
  /** The byte length a cut digest keeps. */
  const CutBytes: nat := 1800
  /** The cap on the "showing first" estimate. */
  const ShownCap: nat := 30

  const ChartUp: char := '\U{1F4C8}'       // 📈, the default event emoji
  const BarChart: string := "\U{1F4CA}"    // 📊
  const Warning: string := "\U{26A0}\U{FE0F}"

  // ------------------------------------------------------------ the digest

  /** The time-of-day column. */
  function TimeLabel(t: Option<string>): string {
    match t
    case None => "TBA"
    case Some(s) =>
      if s == "16:00" || s == "amc" then "AMC"
      else if s == "09:00" || s == "bmo" then "BMO"
      else s
  }

  /** The suffix that flags an important event. */
  function ImportanceMark(importance: Option<int>): string {
    if importance == Some(5) then " \U{1F525}"
    else if importance == Some(4) then " \U{2B50}"
    else ""
  }

  /**
   * Which reported times read as which label: "AMC" comes from "16:00",
   * "amc" or a verbatim "AMC", "BMO" likewise, "TBA" from a missing time or a
   * verbatim "TBA"; any other time is shown as reported.
   */
  lemma TimeLabelReads(t: Option<string>)
    ensures TimeLabel(t) == "AMC" <==> t == Some("16:00") || t == Some("amc") || t == Some("AMC")
    ensures TimeLabel(t) == "BMO" <==> t == Some("09:00") || t == Some("bmo") || t == Some("BMO")
    ensures TimeLabel(t) == "TBA" <==> t == None || t == Some("TBA")
    ensures t.Some? && TimeLabel(t) != t.value ==> t.value in {"16:00", "amc", "09:00", "bmo"}
  {
  }

  /** Importance 5 and only 5 earns the fire mark, 4 and only 4 the star; anything else none. */
  lemma ImportanceMarkReads(importance: Option<int>)
    ensures ImportanceMark(importance) == " \U{1F525}" <==> importance == Some(5)
    ensures ImportanceMark(importance) == " \U{2B50}" <==> importance == Some(4)
    ensures ImportanceMark(importance) == "" <==> importance != Some(5) && importance != Some(4)
  {
  }

  /** Everything of an event's line after its emoji. */
  function EventDetails(e: EarningsEvent): string {
    " **" + e.symbol + "** " + MonthDay(e.date) + " (" + TimeLabel(e.timeOfDay) + ")" + ImportanceMark(e.importance)
  }

  /** One digest line: the emoji (📈 by default), the symbol in bold, MM/DD, the time of day, the mark. */
  function EventLine(e: EarningsEvent): string {
    e.emoji.GetOr([ChartUp]) + EventDetails(e)
  }

  const HeaderTitle: string := " **Earnings Calendar" + " (Next 7 Days)**\nFetched: "

  function Header(fetched: string, total: nat): string {
    BarChart + HeaderTitle + fetched + " | Total: " + NatToString(total)
  }

  function Trailer(total: nat): string
    requires total > MaxListed
  {
    "*...and " + NatToString(total - MaxListed) + " more*"
  }

  function EventLines(events: seq<EarningsEvent>): (lines: seq<string>)
    ensures |lines| == |events|
    ensures forall k :: 0 <= k < |events| ==> lines[k] == EventLine(events[k])
  {
    if events == [] then [] else EventLines(events[..|events| - 1]) + [EventLine(events[|events| - 1])]
  }

  function Listed(events: seq<EarningsEvent>): (shown: seq<EarningsEvent>)
    ensures |shown| == if |events| > MaxListed then MaxListed else |events|
    ensures shown <= events
  {
    if |events| > MaxListed then events[..MaxListed] else events
  }

  /**
   * The lines `format_output` joins: the header, a blank line, one line per
   * listed event in input order, and, past 50 events, a blank line and the
   * count of the rest. `fetched` is the rendered fetch time.
   */
  function DigestLines(events: seq<EarningsEvent>, fetched: string): seq<string> {
    [Header(fetched, |events|), ""] + EventLines(Listed(events)) + TrailerLines(|events|)
  }

  /** A blank line and the count of the rest, past 50 events. */
  function TrailerLines(total: nat): seq<string> {
    if total > MaxListed then ["", Trailer(total)] else []
  }

  /** The loop of `format_output`: one line pushed per listed event. */
  method PushEventLines(shown: seq<EarningsEvent>) returns (body: seq<string>)
    ensures body == EventLines(shown)
  {
    body := [];
    for i := 0 to |shown|
      invariant body == EventLines(shown[..i])
    {
      assert shown[..i + 1][..i] == shown[..i];
      body := body + [EventLine(shown[i])];
    }
    assert shown[..|shown|] == shown;
  }

  /** `format_output`: the header, a blank line, the event lines and the trailer, joined with newlines. */
  method FormatOutput(events: seq<EarningsEvent>, fetched: string) returns (output: string)
    ensures output == JoinLines(DigestLines(events, fetched))
  {
    var body := PushEventLines(Listed(events));
    var tail: seq<string> := [];
    if |events| > MaxListed {
      tail := ["", Trailer(|events|)];
    }
    assert tail == TrailerLines(|events|);
    output := JoinLines([Header(fetched, |events|), ""] + body + tail);
  }

  /**
   * The shape of the digest: header, blank line, then min(n, 50) event lines,
   * and two more lines if and only if there are more than 50 events.
   */
  lemma DigestShape(events: seq<EarningsEvent>, fetched: string)
    ensures var lines := DigestLines(events, fetched);
      && lines[0] == Header(fetched, |events|) && lines[1] == ""
      && |lines| == 2 + |Listed(events)| + (if |events| > MaxListed then 2 else 0)
      && (|events| <= MaxListed ==> |lines| == 2 + |events|)
  {
    PartsShape(Header(fetched, |events|), EventLines(Listed(events)), TrailerLines(|events|));
  }

  /** The event lines are those of exactly the first min(n, 50) events, in order. */
  lemma DigestListsEvents(events: seq<EarningsEvent>, fetched: string)
    ensures forall k :: 0 <= k < |Listed(events)| ==> DigestLines(events, fetched)[2 + k] == EventLine(events[k])
  {
    var body := EventLines(Listed(events));
    PartsShape(Header(fetched, |events|), body, TrailerLines(|events|));
    forall k | 0 <= k < |Listed(events)|
      ensures body[k] == EventLine(events[k])
    {
      assert Listed(events)[k] == events[k];
    }
  }

  /** Past 50 events the digest ends with a blank line and the trailer. */
  lemma DigestTrailer(events: seq<EarningsEvent>, fetched: string)
    requires |events| > MaxListed
    ensures var lines := DigestLines(events, fetched);
      |lines| >= 2 && lines[|lines| - 2..] == ["", Trailer(|events|)]
  {
    PartsShape(Header(fetched, |events|), EventLines(Listed(events)), TrailerLines(|events|));
  }

  /** Where each part sits in the joined-up line list. */
  lemma PartsShape(header: string, body: seq<string>, tail: seq<string>)
    ensures var lines := [header, ""] + body + tail;
      && lines[0] == header && lines[1] == ""
      && |lines| == 2 + |body| + |tail|
      && (forall k :: 0 <= k < |body| ==> lines[2 + k] == body[k])
      && lines[|lines| - |tail|..] == tail
  {
    var lines := [header, ""] + body + tail;
    assert lines[|lines| - |tail|..] == tail;
  }

  /** The header ends with the total, which reads back as the number of events. */
  lemma HeaderTotal(fetched: string, n: nat)
    ensures var digits := NatToString(n);
      |digits| <= |Header(fetched, n)| && Header(fetched, n)[|Header(fetched, n)| - |digits|..] == digits
    ensures DigitsValue(NatToString(n)) == n
  {
    DigitsValueOfNatToString(n);
  }

  // ---------------------------------------- the 📈 count behind the estimate

  function ChartCount(lines: seq<string>): nat {
    if lines == [] then 0 else ChartCount(lines[..|lines| - 1]) + CountChar(lines[|lines| - 1], ChartUp)
  }

  lemma {:induction false} JoinLinesChartCount(lines: seq<string>)
    ensures CountChar(JoinLines(lines), ChartUp) == ChartCount(lines)
  {
    if |lines| == 1 {
      assert lines[..0] == [];
    } else if |lines| > 1 {
      var init := lines[..|lines| - 1];
      JoinLinesChartCount(init);
      CountCharAppend(JoinLines(init), "\n", ChartUp);
      CountCharAppend(JoinLines(init) + "\n", lines[|lines| - 1], ChartUp);
    }
  }

  lemma {:induction false} ChartCountAppend(a: seq<string>, b: seq<string>)
    ensures ChartCount(a + b) == ChartCount(a) + ChartCount(b)
  {
    if b == [] {
      assert a + b == a;
    } else {
      assert (a + b)[..|a + b| - 1] == a + b[..|b| - 1];
      ChartCountAppend(a, b[..|b| - 1]);
    }
  }

  predicate NoChart(s: string) { forall i :: 0 <= i < |s| ==> s[i] != ChartUp }

  /** An event that shows the default 📈 and mentions it nowhere else. */
  predicate PlainEvent(e: EarningsEvent) {
    e.emoji.None? && NoChart(e.symbol) && (e.timeOfDay.Some? ==> NoChart(e.timeOfDay.value))
  }

  lemma LineTailHasNoChart(e: EarningsEvent)
    requires PlainEvent(e)
    ensures NoChart(EventDetails(e))
  {
    var date := MonthDay(e.date);
    assert forall i :: 0 <= i < |date| ==> IsDigit(date[i]) || date[i] == '/' by {
      var a, b := Pad2(e.date.month), Pad2(e.date.day);
      assert date == a + "/" + b;
      assert AllDigits(a) && AllDigits(b);
    }
    assert NoChart(TimeLabel(e.timeOfDay));
    assert NoChart(ImportanceMark(e.importance));
    NoChartAppend(" **", e.symbol);
    NoChartAppend(" **" + e.symbol, "** ");
    NoChartAppend(" **" + e.symbol + "** ", date);
    NoChartAppend(" **" + e.symbol + "** " + date, " (");
    NoChartAppend(" **" + e.symbol + "** " + date + " (", TimeLabel(e.timeOfDay));
    NoChartAppend(" **" + e.symbol + "** " + date + " (" + TimeLabel(e.timeOfDay), ")");
    NoChartAppend(" **" + e.symbol + "** " + date + " (" + TimeLabel(e.timeOfDay) + ")", ImportanceMark(e.importance));
  }

  lemma PlainEventLineHasOneChart(e: EarningsEvent)
    requires PlainEvent(e)
    ensures CountChar(EventLine(e), ChartUp) == 1
  {
    LineTailHasNoChart(e);
    CountCharAppend([ChartUp], EventDetails(e), ChartUp);
  }

  lemma {:induction false} PlainEventLinesCount(events: seq<EarningsEvent>)
    requires forall k :: 0 <= k < |events| ==> PlainEvent(events[k])
    ensures ChartCount(EventLines(events)) == |events|
  {
    if events != [] {
      var init := events[..|events| - 1];
      PlainEventLinesCount(init);
      assert EventLines(events)[..|events| - 1] == EventLines(init);
      PlainEventLineHasOneChart(events[|events| - 1]);
    }
  }

  lemma NoChartCount(s: string)
    requires NoChart(s)
    ensures CountChar(s, ChartUp) == 0
  {
  }

  lemma NoChartAppend(a: string, b: string)
    requires NoChart(a) && NoChart(b)
    ensures NoChart(a + b)
  {
    forall i | 0 <= i < |a + b|
      ensures (a + b)[i] != ChartUp
    {
      if i >= |a| {
        assert (a + b)[i] == b[i - |a|];
      }
    }
  }

  lemma DigitsHaveNoChart(n: nat)
    ensures NoChart(NatToString(n))
  {
    var digits := NatToString(n);
    assert forall i :: 0 <= i < |digits| ==> IsDigit(digits[i]);
  }

  lemma PairChartCount(a: string, b: string)
    ensures ChartCount([a, b]) == CountChar(a, ChartUp) + CountChar(b, ChartUp)
  {
    assert [a][..0] == [];
    assert ChartCount([a]) == CountChar(a, ChartUp);
    assert [a, b][..1] == [a];
  }

  lemma HeaderHasNoChart(fetched: string, total: nat)
    requires NoChart(fetched)
    ensures ChartCount([Header(fetched, total), ""]) == 0
  {
    assert NoChart(" **Earnings Calendar");
    assert NoChart(" (Next 7 Days)**\nFetched: ");
    NoChartAppend(" **Earnings Calendar", " (Next 7 Days)**\nFetched: ");
    NoChartAppend(BarChart, HeaderTitle);
    NoChartAppend(BarChart + HeaderTitle, fetched);
    NoChartAppend(BarChart + HeaderTitle + fetched, " | Total: ");
    DigitsHaveNoChart(total);
    NoChartAppend(BarChart + HeaderTitle + fetched + " | Total: ", NatToString(total));
    NoChartCount(Header(fetched, total));
    PairChartCount(Header(fetched, total), "");
  }

  lemma TrailerHasNoChart(total: nat)
    requires total > MaxListed
    ensures ChartCount(["", Trailer(total)]) == 0
  {
    DigitsHaveNoChart(total - MaxListed);
    NoChartAppend("*...and ", NatToString(total - MaxListed));
    NoChartAppend("*...and " + NatToString(total - MaxListed), " more*");
    NoChartCount(Trailer(total));
    PairChartCount("", Trailer(total));
  }

  /** The 📈 count of a digest put together from its parts is that of its event lines. */
  lemma PartsChartCount(header: string, body: seq<string>, tail: seq<string>)
    requires ChartCount([header, ""]) == 0 && ChartCount(tail) == 0
    ensures CountChar(JoinLines([header, ""] + body + tail), ChartUp) == ChartCount(body)
  {
    var head := [header, ""];
    JoinLinesChartCount(head + body + tail);
    ChartCountAppend(head + body, tail);
    ChartCountAppend(head, body);
  }

  lemma ListedArePlain(events: seq<EarningsEvent>)
    requires forall k :: 0 <= k < |events| ==> PlainEvent(events[k])
    ensures forall k :: 0 <= k < |Listed(events)| ==> PlainEvent(Listed(events)[k])
  {
  }

  /**
   * When every event shows the default 📈 and mentions it nowhere else, the
   * 📈 count of the digest is the number of events it lists, so the
   * fallback's "showing first" estimate counts listed events.
   */
  lemma DigestChartCount(events: seq<EarningsEvent>, fetched: string)
    requires NoChart(fetched)
    requires forall k :: 0 <= k < |events| ==> PlainEvent(events[k])
    ensures CountChar(JoinLines(DigestLines(events, fetched)), ChartUp) == |Listed(events)|
  {
    HeaderHasNoChart(fetched, |events|);
    if |events| > MaxListed {
      TrailerHasNoChart(|events|);
    } else {
      assert TrailerLines(|events|) == [];
    }
    ListedArePlain(events);
    PlainEventLinesCount(Listed(events));
    PartsChartCount(Header(fetched, |events|), EventLines(Listed(events)), TrailerLines(|events|));
  }

  // ----------------------------------------------------- the text fallback

  function TruncationNotice(shown: nat, total: nat, err: string): string {
    "\n\n" + Warning + " *Message truncated - showing first " + NatToString(shown) + " of " + NatToString(total)
      + " events. Use filters to see more.*\n" + Warning + " Image render unavailable: " + err
  }

  function FallbackNotice(err: string): string {
    "\n\n" + Warning + " Image render unavailable: " + err
  }

  function ShownEstimate(output: string): nat {
    if CountChar(output, ChartUp) < ShownCap then CountChar(output, ChartUp) else ShownCap
  }

  /**
   * The text fallback as written: `&output[..1800]` on a digest over 1900
   * bytes. None stands for the panic Rust raises when byte 1800 is not a
   * character boundary.
   */
  function TextFallbackAsWritten(output: string, total: nat, err: string): Option<string> {
    if ByteLen(output) > TextBudget then
      match BytePrefix(output, CutBytes)
      case None => None
      case Some(head) => Some(head + TruncationNotice(ShownEstimate(output), total, err))
    else Some(output + FallbackNotice(err))
  }

  const Fire: char := '\U{1F525}'         // 🔥, the mark of importance 5
  const PreMarket: string := "time-pre-market"

  /**
   * The events of the digest below: a four-letter symbol, the default 📈,
   * importance 5, and a reported time of day that is shown as it comes.
   */
  predicate LongLine(e: EarningsEvent) {
    && |e.symbol| == 4 && IsAscii(e.symbol)
    && e.timeOfDay == Some(PreMarket) && e.emoji == None && e.importance == Some(5)
  }

  lemma TitleBytes()
    ensures ByteLen(HeaderTitle) == 46
  {
    TitleStartBytes();
    TitleEndBytes();
    ByteLenAppend(" **Earnings Calendar", " (Next 7 Days)**\nFetched: ");
  }

  lemma TitleStartBytes()
    ensures ByteLen(" **Earnings Calendar") == 20
  {
    assert IsAscii(" **Earnings Calendar");
    ByteLenAscii(" **Earnings Calendar");
  }

  lemma TitleEndBytes()
    ensures ByteLen(" (Next 7 Days)**\nFetched: ") == 26
  {
    assert IsAscii(" (Next 7 Days)**\nFetched: ");
    ByteLenAscii(" (Next 7 Days)**\nFetched: ");
  }

  lemma TotalLabelBytes()
    ensures ByteLen(" | Total: ") == 10
  {
    assert IsAscii(" | Total: ");
    ByteLenAscii(" | Total: ");
  }

  lemma DigitsBytes(n: nat)
    ensures ByteLen(NatToString(n)) == |NatToString(n)|
  {
    var digits := NatToString(n);
    assert forall i :: 0 <= i < |digits| ==> IsDigit(digits[i]);
    ByteLenAscii(digits);
  }

  /** The header is 60 bytes besides the fetch time and the total. */
  lemma HeaderBytes(fetched: string, total: nat)
    ensures ByteLen(Header(fetched, total)) == 60 + ByteLen(fetched) + |NatToString(total)|
  {
    TitleBytes();
    TotalLabelBytes();
    DigitsBytes(total);
    OneCharBytes('\U{1F4CA}');
    assert BarChart == ['\U{1F4CA}'];
    ByteLenAppend(BarChart, HeaderTitle);
    ByteLenAppend(BarChart + HeaderTitle, fetched);
    ByteLenAppend(BarChart + HeaderTitle + fetched, " | Total: ");
    ByteLenAppend(BarChart + HeaderTitle + fetched + " | Total: ", NatToString(total));
  }

  lemma MonthDayBytes(date: NaiveDate)
    ensures ByteLen(MonthDay(date)) == 5
  {
    var m, d := Pad2(date.month), Pad2(date.day);
    assert forall i :: 0 <= i < |m| ==> IsDigit(m[i]);
    assert forall i :: 0 <= i < |d| ==> IsDigit(d[i]);
    assert IsAscii(m + "/" + d);
    ByteLenAscii(m + "/" + d);
  }

  lemma DetailsPunctuationBytes()
    ensures ByteLen(" **") == 3 && ByteLen("** ") == 3 && ByteLen(" (") == 2 && ByteLen(")") == 1 && ByteLen(" ") == 1
  {
    ByteLenAscii(" **");
    ByteLenAscii("** ");
    ByteLenAscii(" (");
    ByteLenAscii(")");
    ByteLenAscii(" ");
  }

  lemma PreMarketBytes()
    ensures ByteLen(PreMarket) == 15
  {
    assert IsAscii(PreMarket);
    ByteLenAscii(PreMarket);
  }

  /** The details of a long line up to the space before its mark: 33 bytes. */
  lemma DetailsBytes(sym: string, date: string)
    requires |sym| == 4 && IsAscii(sym) && ByteLen(date) == 5
    ensures ByteLen(" **" + sym + "** " + date + " (" + PreMarket + ")") == 33
  {
    DetailsPunctuationBytes();
    PreMarketBytes();
    ByteLenAscii(sym);
    ByteLenAppend(" **", sym);
    ByteLenAppend(" **" + sym, "** ");
    ByteLenAppend(" **" + sym + "** ", date);
    ByteLenAppend(" **" + sym + "** " + date, " (");
    ByteLenAppend(" **" + sym + "** " + date + " (", PreMarket);
    ByteLenAppend(" **" + sym + "** " + date + " (" + PreMarket, ")");
  }

  /** The emoji, the details and the space before the 🔥: 38 bytes. */
  lemma BeforeFireBytes(x: string)
    requires ByteLen(x) == 33
    ensures ByteLen([ChartUp] + x + " ") == 38
  {
    DetailsPunctuationBytes();
    OneCharBytes(ChartUp);
    ByteLenAppend([ChartUp], x);
    ByteLenAppend([ChartUp] + x, " ");
  }

  lemma LongLineShape(e: EarningsEvent)
    requires LongLine(e)
    ensures EventLine(e) == [ChartUp] + (" **" + e.symbol + "** " + MonthDay(e.date) + " (" + PreMarket + ")") + " " + [Fire]
  {
    assert TimeLabel(e.timeOfDay) == PreMarket;
    assert ImportanceMark(e.importance) == " " + [Fire];
  }

  /** Such an event's line is 42 bytes and ends with its 🔥, which starts at byte 38. */
  lemma LongLineBytes(e: EarningsEvent)
    requires LongLine(e)
    ensures var line := EventLine(e);
      && |line| > 0 && line[|line| - 1] == Fire
      && ByteLen(line[..|line| - 1]) == 38 && ByteLen(line) == 42
  {
    var x := " **" + e.symbol + "** " + MonthDay(e.date) + " (" + PreMarket + ")";
    MonthDayBytes(e.date);
    DetailsBytes(e.symbol, MonthDay(e.date));
    var pre := [ChartUp] + x + " ";
    BeforeFireBytes(x);
    LongLineShape(e);
    var line := EventLine(e);
    assert line == pre + [Fire];
    assert line[..|line| - 1] == pre;
    OneCharBytes(Fire);
    ByteLenAppend(pre, [Fire]);
  }

  /** Joining one more line adds a newline byte and the line's bytes. */
  lemma JoinStepBytes(lines: seq<string>, j: nat)
    requires 1 <= j < |lines|
    ensures ByteLen(JoinLines(lines[..j + 1])) == ByteLen(JoinLines(lines[..j])) + 1 + ByteLen(lines[j])
  {
    var before := JoinLines(lines[..j]);
    JoinLinesSnoc(lines, j);
    ByteLenAscii("\n");
    ByteLenAppend(before, "\n");
    ByteLenAppend(before + "\n", lines[j]);
  }

  lemma TotalDigits50()
    ensures |NatToString(MaxListed)| == 2
  {
    assert NatToString(50) == "50";
  }

  /** The header and the blank line of such a digest take 83 bytes, newline included. */
  lemma DigestHeadBytes(events: seq<EarningsEvent>, fetched: string)
    requires |events| == MaxListed && ByteLen(fetched) == 20
    ensures |DigestLines(events, fetched)| >= 2
    ensures ByteLen(JoinLines(DigestLines(events, fetched)[..2])) == 83
  {
    var lines := DigestLines(events, fetched);
    DigestShape(events, fetched);
    assert ByteLen(lines[0]) == 82 by {
      HeaderBytes(fetched, |events|);
      TotalDigits50();
    }
    JoinStepBytes(lines, 1);
    assert lines[..1] == [lines[0]];
  }

  /** The event line at index `2 + k` of the digest is that of event `k`. */
  lemma DigestEventLine(events: seq<EarningsEvent>, fetched: string, k: nat)
    requires k < |Listed(events)|
    ensures 2 + k < |DigestLines(events, fetched)| && DigestLines(events, fetched)[2 + k] == EventLine(events[k])
  {
    DigestShape(events, fetched);
    DigestListsEvents(events, fetched);
  }

  /** `LongLineBytes`, for a line found at index `j` of a list. */
  lemma LongLineAt(lines: seq<string>, e: EarningsEvent, j: nat)
    requires j < |lines| && lines[j] == EventLine(e) && LongLine(e)
    ensures |lines[j]| > 0 && lines[j][|lines[j]| - 1] == Fire
    ensures ByteLen(lines[j][..|lines[j]| - 1]) == 38 && ByteLen(lines[j]) == 42
  {
    LongLineBytes(e);
  }

  /** The header, the blank line and the first `k` event lines of such a digest take 83 + 43k bytes. */
  lemma {:induction false} DigestPrefixBytes(events: seq<EarningsEvent>, fetched: string, k: nat)
    requires |events| == MaxListed && ByteLen(fetched) == 20
    requires forall i :: 0 <= i < |events| ==> LongLine(events[i])
    requires k <= |events|
    ensures |DigestLines(events, fetched)| == 2 + |events|
    ensures ByteLen(JoinLines(DigestLines(events, fetched)[..2 + k])) == 83 + 43 * k
  {
    var lines := DigestLines(events, fetched);
    if k == 0 {
      DigestShape(events, fetched);
      DigestHeadBytes(events, fetched);
    } else {
      DigestPrefixBytes(events, fetched, k - 1);
      DigestEventLine(events, fetched, k - 1);
      LongLineAt(lines, events[k - 1], k + 1);
      JoinStepBytes(lines, k + 1);
    }
  }

  /** A cut that falls inside the last character of line `j` is not a character boundary. */
  lemma CutInsideLineEnd(lines: seq<string>, j: nat, n: nat)
    requires 1 <= j < |lines| && |lines[j]| > 0
    requires var before := ByteLen(JoinLines(lines[..j])) + 1 + ByteLen(lines[j][..|lines[j]| - 1]);
      before < n < before + Utf8Width(lines[j][|lines[j]| - 1])
    ensures BytePrefix(JoinLines(lines), n) == None
  {
    var line := lines[j];
    var pre, c := line[..|line| - 1], line[|line| - 1];
    var a := JoinLines(lines[..j]) + "\n" + pre;
    assert JoinLines(lines[..j + 1]) == a + [c] by {
      JoinLinesSnoc(lines, j);
      assert line == pre + [c];
    }
    assert ByteLen(a) == ByteLen(JoinLines(lines[..j])) + 1 + ByteLen(pre) by {
      ByteLenAscii("\n");
      ByteLenAppend(JoinLines(lines[..j]), "\n");
      ByteLenAppend(JoinLines(lines[..j]) + "\n", pre);
    }
    var output := JoinLines(lines);
    JoinLinesPrefix(lines, j + 1);
    var rest := output[|a| + 1..];
    assert output == a + [c] + rest;
    BytePrefixInsideChar(a, c, rest, n);
  }

  /**
   * A real digest that makes the fallback as written panic: 50 events as
   * above and a fetch time of 20 bytes (as `%Y-%m-%d %H:%M UTC` renders it)
   * give 2233 bytes, and the 🔥 of the 40th event line occupies bytes 1799
   * to 1802, so byte 1800 is not a character boundary.
   */
  lemma DigestCutInsideFire(events: seq<EarningsEvent>, fetched: string, err: string)
    requires |events| == MaxListed && ByteLen(fetched) == 20
    requires forall i :: 0 <= i < |events| ==> LongLine(events[i])
    ensures var output := JoinLines(DigestLines(events, fetched));
      ByteLen(output) > TextBudget && TextFallbackAsWritten(output, |events|, err) == None
  {
    var lines := DigestLines(events, fetched);
    DigestTotalBytes(events, fetched);
    DigestFireLine(events, fetched);
    CutInsideLineEnd(lines, 41, CutBytes);
  }

  /** Such a digest is 2233 bytes long. */
  lemma DigestTotalBytes(events: seq<EarningsEvent>, fetched: string)
    requires |events| == MaxListed && ByteLen(fetched) == 20
    requires forall i :: 0 <= i < |events| ==> LongLine(events[i])
    ensures ByteLen(JoinLines(DigestLines(events, fetched))) == 2233
  {
    var lines := DigestLines(events, fetched);
    DigestPrefixBytes(events, fetched, 50);
    assert lines[..52] == lines;
  }

  /** In such a digest the 40th event line starts at byte 1761 and its 🔥 at byte 1799. */
  lemma DigestFireLine(events: seq<EarningsEvent>, fetched: string)
    requires |events| == MaxListed && ByteLen(fetched) == 20
    requires forall i :: 0 <= i < |events| ==> LongLine(events[i])
    ensures var lines := DigestLines(events, fetched);
      && |lines| == 52 && ByteLen(JoinLines(lines[..41])) == 1760
      && |lines[41]| > 0 && lines[41][|lines[41]| - 1] == Fire && ByteLen(lines[41][..|lines[41]| - 1]) == 38
  {
    var lines := DigestLines(events, fetched);
    DigestPrefixBytes(events, fetched, 39);
    DigestEventLine(events, fetched, 39);
    LongLineAt(lines, events[39], 41);
  }

  /**
   * The text fallback, cut at the last character boundary at or before byte
   * 1800 (`floor_char_boundary`), so that it never panics. The render error
   * always ends the text; a digest within budget is kept whole; a longer one
   * keeps at most 1800 bytes of its start, and at least 1797.
   */
  function TextFallback(output: string, total: nat, err: string): (content: string)
    ensures |err| <= |content| && content[|content| - |err|..] == err
    ensures ByteLen(output) <= TextBudget ==> content == output + FallbackNotice(err)
    ensures ByteLen(output) > TextBudget ==>
      var head := FloorPrefix(output, CutBytes);
      && head <= output
      && CutBytes - 3 <= ByteLen(head) <= CutBytes
      && content == head + TruncationNotice(ShownEstimate(output), total, err)
  {
    if ByteLen(output) > TextBudget then
      var head := FloorPrefix(output, CutBytes);
      assert ByteLen(head) <= CutBytes < ByteLen(output);
      head + TruncationNotice(ShownEstimate(output), total, err)
    else output + FallbackNotice(err)
  }

  /** The correction changes nothing where the code as written does not panic. */
  lemma TextFallbackAgrees(output: string, total: nat, err: string)
    requires TextFallbackAsWritten(output, total, err).Some?
    ensures TextFallbackAsWritten(output, total, err) == Some(TextFallback(output, total, err))
  {
    if ByteLen(output) > TextBudget {
      BytePrefixIsFloor(output, CutBytes);
    }
  }

  // ------------------------------------------------------------ the handler

  /** The outcome of the time-limited fetch. */
  datatype FetchOutcome<T> = Fetched(value: T) | FetchFailed(error: string) | TimedOut

  datatype EarningsResponse = EarningsResponse(content: string, image: Option<seq<bv8>>)

  const NoEarningsMessage: string := "No earnings within the next 7 days."
  const TimeoutMessage: string :=
    "Request timed out. The earnings " + "API is taking too long to respond." + " Please try again later."

  function FetchErrorMessage(error: string): string {
    "Failed to fetch earnings: " + error
  }

  function ImageSummary(total: nat): string {
    BarChart + " Earnings Calendar (next 7 days) \U{2014} " + NatToString(total) + " events"
  }

  /** A timeout and an upstream error read differently, and only the timeout asks to try again later. */
  lemma TimeoutIsDistinct(error: string)
    ensures TimeoutMessage != FetchErrorMessage(error)
    ensures Contains(TimeoutMessage, "try again later")
  {
    assert TimeoutMessage[0] == 'R';
    assert FetchErrorMessage(error)[0] == 'F';
    var last := " Please try again later.";
    assert TimeoutMessage[66..] == last;
    assert OccursAt(last, "try again later", 8);
    assert TimeoutMessage[74..74 + 15] == last[8..8 + 15];
    assert OccursAt(TimeoutMessage, "try again later", 74);
  }

  /**
   * `handle`: the fetch outcome decides first; an empty list answers without
   * rendering; otherwise the image is tried, and on failure the text digest
   * goes out with the render error attached. `rendered` says whether the
   * image renderer was called.
   */
  method Handle(
    fetch: FetchOutcome<seq<EarningsEvent>>, fetched: string,
    renderImage: seq<EarningsEvent> -> Result<seq<bv8>, string>)
    returns (r: Result<EarningsResponse, string>, rendered: bool)
    ensures fetch.TimedOut? ==> r == Failure(TimeoutMessage) && !rendered
    ensures fetch.FetchFailed? ==> r == Failure(FetchErrorMessage(fetch.error)) && !rendered
    ensures fetch.Fetched? && fetch.value == [] ==>
              r == Success(EarningsResponse(NoEarningsMessage, None)) && !rendered
    ensures fetch.Fetched? && fetch.value != [] ==> rendered && r.Success?
    ensures fetch.Fetched? && fetch.value != [] && renderImage(fetch.value).Success? ==>
              r.value == EarningsResponse(ImageSummary(|fetch.value|), Some(renderImage(fetch.value).value))
    ensures fetch.Fetched? && fetch.value != [] && renderImage(fetch.value).Failure? ==>
              var output := JoinLines(DigestLines(fetch.value, fetched));
              r.value == EarningsResponse(TextFallback(output, |fetch.value|, renderImage(fetch.value).error), None)
    ensures fetch.Fetched? && fetch.value != [] && renderImage(fetch.value).Failure? ==>
              var output := JoinLines(DigestLines(fetch.value, fetched));
              var written := TextFallbackAsWritten(output, |fetch.value|, renderImage(fetch.value).error);
              written.Some? ==> r.value == EarningsResponse(written.value, None)
  {
    rendered := false;
    var events;
    match fetch {
      case Fetched(list) => events := list;
      case FetchFailed(e) => return Failure(FetchErrorMessage(e)), false;
      case TimedOut => return Failure(TimeoutMessage), false;
    }
    if events == [] {
      return Success(EarningsResponse(NoEarningsMessage, None)), false;
    }
    var output := FormatOutput(events, fetched);
    var summary := ImageSummary(|events|);
    var image := renderImage(events);
    rendered := true;
    match image {
      case Success(bytes) =>
        r := Success(EarningsResponse(summary, Some(bytes)));
      case Failure(err) =>
        if TextFallbackAsWritten(output, |events|, err).Some? {
          TextFallbackAgrees(output, |events|, err);
        }
        r := Success(EarningsResponse(TextFallback(output, |events|, err), None));
    }
  }
}
