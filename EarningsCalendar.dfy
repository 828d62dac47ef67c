/**
 * The daily earnings poster: the start gate read from the environment, the
 * once-a-day posting gate over the last-post date, and one posting attempt.
 * The clock is an input: each tick of the 30-minute interval carries the UTC
 * hour and date it fired at.
 */
module EarningsCalendar {
  import opened Wrappers
  import opened Text
  import opened Dates
  import opened Earnings

  // ---------------------------------------------------------- the start gate

  const U64Limit: nat := 0x1_0000_0000_0000_0000

  /**
   * `str::parse::<u64>`: an optional leading '+' (not on its own), then one
   * or more ASCII digits whose value fits in 64 bits.
   */
  function ParseU64(s: string): (r: Option<nat>)
    ensures r.Some? ==> r.value < U64Limit
    ensures s == [] ==> r.None?
  {
    var digits := if |s| > 1 && s[0] == '+' then s[1..] else s;
    if digits == [] || !AllDigits(digits) then None
    else if DigitsValue(digits) < U64Limit then Some(DigitsValue(digits))
    else None
  }

  /** Every channel id the bot could be given reads back from its decimal text, with or without '+'. */
  lemma ParseU64RoundTrip(n: nat)
    requires n < U64Limit
    ensures ParseU64(NatToString(n)) == Some(n)
    ensures ParseU64("+" + NatToString(n)) == Some(n)
  {
    DigitsValueOfNatToString(n);
    var s := NatToString(n);
    assert ("+" + s)[1..] == s;
  }

  /** A sign of its own, a minus sign, or any non-digit makes the id unreadable. */
  lemma ParseU64Rejects(s: string)
    requires s == "+" || (|s| > 0 && s[0] == '-') || (exists i :: 0 <= i < |s| && s[i] != '+' && !IsDigit(s[i]))
    ensures ParseU64(s) == None
  {
    if |s| > 1 && s[0] == '+' {
      var i :| 0 <= i < |s| && s[i] != '+' && !IsDigit(s[i]);
      assert s[1..][i - 1] == s[i];
    }
  }

  /**
   * `spawn_earnings_poster`'s gate: `enable` and `channel` are the values of
   * ENABLE_EARNINGS_PINGER and EARNINGS_CHANNEL_ID (None when unset). The
   * poster starts, for the returned channel, unless the flag is exactly "0"
   * or the channel id is missing or unreadable.
   */
  function StartChannel(enable: Option<string>, channel: Option<string>): (r: Option<nat>)
    ensures r.None? <==> enable == Some("0") || channel.None? || ParseU64(channel.value).None?
    ensures r.Some? ==> r == ParseU64(channel.value)
  {
    if enable == Some("0") then None
    else channel.Bind(ParseU64)
  }

  // ------------------------------------------------------ the posting gate

  /** The hour of the posting window, in UTC. */
  const PostHour: nat := 13

  datatype Tick = Tick(hour: nat, today: NaiveDate)

  /**
   * `should_post_now` as a function of the stored date: whether to post, and
   * the date stored afterwards. It posts exactly in hour 13 of a day not yet
   * posted, and then remembers that day; otherwise nothing changes.
   */
  function Gate(last: Option<NaiveDate>, t: Tick): (r: (bool, Option<NaiveDate>))
    ensures r.0 <==> t.hour == PostHour && last != Some(t.today)
    ensures r.1 == if r.0 then Some(t.today) else last
  {
    if t.hour != PostHour then (false, last)
    else if last == Some(t.today) then (false, last)
    else (true, Some(t.today))
  }

  /** The stored date after a run of ticks. */
  function StateAfter(init: Option<NaiveDate>, ticks: seq<Tick>): Option<NaiveDate> {
    if ticks == [] then init else Gate(StateAfter(init, ticks[..|ticks| - 1]), ticks[|ticks| - 1]).1
  }

  /** The gate's answer at each tick of a run. */
  function Posts(init: Option<NaiveDate>, ticks: seq<Tick>): (r: seq<bool>)
    ensures |r| == |ticks|
  {
    if ticks == [] then []
    else Posts(init, ticks[..|ticks| - 1]) + [Gate(StateAfter(init, ticks[..|ticks| - 1]), ticks[|ticks| - 1]).0]
  }

  lemma {:induction false} PostsAt(init: Option<NaiveDate>, ticks: seq<Tick>, k: nat)
    requires k < |ticks|
    ensures Posts(init, ticks)[k] == Gate(StateAfter(init, ticks[..k]), ticks[k]).0
  {
    var init' := ticks[..|ticks| - 1];
    if k < |ticks| - 1 {
      PostsAt(init, init', k);
      assert init'[..k] == ticks[..k];
    } else {
      assert init' == ticks[..k];
    }
  }

  lemma StateAfterStep(init: Option<NaiveDate>, ticks: seq<Tick>, k: nat)
    requires k < |ticks|
    ensures StateAfter(init, ticks[..k + 1]) == Gate(StateAfter(init, ticks[..k]), ticks[k]).1
  {
    assert ticks[..k + 1][..k] == ticks[..k];
  }

  /** Dates that are each not after the other are the same date. */
  lemma NotAfterAntisymmetric(a: NaiveDate, b: NaiveDate)
    requires NotAfter(a, b) && NotAfter(b, a)
    ensures a == b
  {
  }

  /** The ticks fire in calendar order. */
  predicate Chronological(ticks: seq<Tick>) {
    forall a, b :: 0 <= a < b < |ticks| ==> NotAfter(ticks[a].today, ticks[b].today)
  }

  /** After a post on date d, the stored date stays d through every later tick of that day. */
  lemma {:induction false} RemembersPostedDay(init: Option<NaiveDate>, ticks: seq<Tick>, i: nat, j: nat, k: nat)
    requires i < k <= j < |ticks| && Chronological(ticks)
    requires ticks[i].today == ticks[j].today
    requires Posts(init, ticks)[i]
    ensures StateAfter(init, ticks[..k]) == Some(ticks[i].today)
    decreases k
  {
    StateAfterStep(init, ticks, k - 1);
    if k == i + 1 {
      PostsAt(init, ticks, i);
    } else {
      RemembersPostedDay(init, ticks, i, j, k - 1);
      NotAfterAntisymmetric(ticks[k - 1].today, ticks[i].today);
    }
  }

  /**
   * At most one post per calendar date: over ticks in calendar order, two
   * ticks on the same date never both pass the gate.
   */
  lemma AtMostOncePerDay(init: Option<NaiveDate>, ticks: seq<Tick>, i: nat, j: nat)
    requires i < j < |ticks| && Chronological(ticks)
    requires ticks[i].today == ticks[j].today
    ensures !(Posts(init, ticks)[i] && Posts(init, ticks)[j])
  {
    if Posts(init, ticks)[i] {
      RemembersPostedDay(init, ticks, i, j, j);
      PostsAt(init, ticks, j);
    }
  }

  /** After the gate passes, the stored date is the tick's date. */
  lemma PostRecordsDay(init: Option<NaiveDate>, ticks: seq<Tick>, k: nat)
    requires k < |ticks| && Posts(init, ticks)[k]
    ensures StateAfter(init, ticks[..k + 1]) == Some(ticks[k].today)
  {
    PostsAt(init, ticks, k);
    StateAfterStep(init, ticks, k);
  }

  // ------------------------------------------------------------ one attempt

  function FetchErrorText(error: string): string {
    "fetch error: " + error
  }

  function PostErrorText(error: string): string {
    "failed to post earnings calendar: " + error
  }

  /**
   * `post_once`: `fetch` is the outcome of the seven-day earnings request,
   * `fetched` the rendered time stamp, and `say` what sending a message to the
   * channel returns. `sent` is the message handed to the channel, if any.
   */
  method PostOnce(fetch: Result<seq<EarningsEvent>, string>, fetched: string, say: string -> Result<(), string>)
    returns (r: Result<(), string>, sent: Option<string>)
    ensures fetch.Failure? ==> r == Failure(FetchErrorText(fetch.error)) && sent == None
    ensures fetch.Success? && fetch.value == [] ==> r == Success(()) && sent == None
    ensures fetch.Success? && fetch.value != [] ==>
      var content := JoinLines(DigestLines(fetch.value, fetched));
      && sent == Some(content)
      && (say(content).Success? ==> r == Success(()))
      && (say(content).Failure? ==> r == Failure(PostErrorText(say(content).error)))
  {
    if fetch.Failure? {
      return Failure(FetchErrorText(fetch.error)), None;
    }
    var events := fetch.value;
    if events == [] {
      return Success(()), None;
    }
    var content := FormatOutput(events, fetched);
    sent := Some(content);
    var said := say(content);
    if said.Failure? {
      return Failure(PostErrorText(said.error)), sent;
    }
    r := Success(());
  }

  /** The poster's state: the date of the last post, behind a lock in the bot. */
  class PostingScheduler {
    var lastPostDate: Option<NaiveDate>

    constructor()
      ensures lastPostDate == None
    {
      lastPostDate := None;
    }

    /** `should_post_now` at the given hour and date. */
    method ShouldPostNow(hour: nat, today: NaiveDate) returns (post: bool)
      modifies this
      ensures (post, lastPostDate) == Gate(old(lastPostDate), Tick(hour, today))
    {
      if hour != PostHour {
        return false;
      }
      if lastPostDate.Some? && lastPostDate.value == today {
        return false;
      }
      lastPostDate := Some(today);
      post := true;
    }

    /**
     * The poster's loop over a finite run of ticks: at each tick that passes
     * the gate, one `post_once` attempt, whose error is only logged.
     * `fetch(k)` and `say(k, _)` are the outcomes at tick k.
     */
    method Serve(
      ticks: seq<Tick>, fetched: string,
      fetch: nat -> Result<seq<EarningsEvent>, string>,
      say: (nat, string) -> Result<(), string>)
      returns (attempted: seq<bool>, sent: seq<Option<string>>)
      modifies this
      ensures attempted == Posts(old(lastPostDate), ticks)
      ensures lastPostDate == StateAfter(old(lastPostDate), ticks)
      ensures |sent| == |ticks|
      ensures forall k :: 0 <= k < |ticks| ==> (sent[k].Some? <==> attempted[k] && fetch(k).Success? && fetch(k).value != [])
    {
      attempted, sent := [], [];
      for k := 0 to |ticks|
        invariant attempted == Posts(old(lastPostDate), ticks[..k])
        invariant lastPostDate == StateAfter(old(lastPostDate), ticks[..k])
        invariant |sent| == k
        invariant forall m :: 0 <= m < k ==> (sent[m].Some? <==> attempted[m] && fetch(m).Success? && fetch(m).value != [])
      {
        assert ticks[..k + 1][..k] == ticks[..k];
        var post := ShouldPostNow(ticks[k].hour, ticks[k].today);
        var message: Option<string> := None;
        if post {
          var _, m := PostOnce(fetch(k), fetched, s => say(k, s));
          message := m;
        }
        attempted, sent := attempted + [post], sent + [message];
      }
      assert ticks[..|ticks|] == ticks;
    }
  }

  /**
   * The date is stored before the attempt: a tick whose attempt failed to
   * fetch still leaves its date stored, so no later tick that day posts again.
   */
  lemma FailedFetchNotRetried(init: Option<NaiveDate>, ticks: seq<Tick>, i: nat, j: nat)
    requires i < j < |ticks| && Chronological(ticks)
    requires ticks[i].today == ticks[j].today
    requires Posts(init, ticks)[i]
    ensures StateAfter(init, ticks[..i + 1]) == Some(ticks[i].today)
    ensures !Posts(init, ticks)[j]
  {
    PostRecordsDay(init, ticks, i);
    AtMostOncePerDay(init, ticks, i, j);
  }
}
