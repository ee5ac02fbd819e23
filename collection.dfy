/**
 * The collection loop of `main` in src/make_dataset.py: for every account,
 * plan its pool, and for every pool instance fetch pages one after another,
 * retrying a request with exponential back-off until an answer can be read,
 * writing the page's records, following the `next_token` cursor and keeping
 * to the API's window of 300 requests per 900 seconds.
 *
 * The network is a script of answers, one per attempt, in the order they
 * would arrive; the clock is an integer that only advances by the time each
 * attempt takes and by the sleeps the loop asks for.
 */
module Collection {
  import opened Values
  import opened Planning
  import opened Queries
  import opened Records
  import opened Appenders

  /** `MAX_COUNT`: no request is issued once this many tweets were counted. */
  const MaxCount: int := 10000000
  /** Requests allowed in one rate window, and the window's length in seconds. */
  const RequestCap: int := 300
  const WindowSeconds: int := 900

  /** The outcome of one attempt: the call failed, or it returned a decoded body after `elapsed` seconds. */
  datatype Answer = Refused(elapsed: nat) | Body(elapsed: nat, json: Json)

  /** Why a run ended before its last account. */
  datatype Stop =
    | UnknownAccount(account: string)   // `.values[0]` of an account missing from the accounts table
    | NotComparable(resultCount: Json)  // `result_count > 0` on a value that is not a number
    | BadRecord(error: SchemaError)     // an append function could not read a record
    | Unanswered                        // the script of answers ran out while retrying

  /**
   * A request as issued: the search and the cursor it carried, with the
   * value of `count` when it left.  The request itself is `RequestOf`.
   */
  datatype Issued = Issued(search: string, cursor: Json, count: int)

  // ---------------------------------------------------------------------
  // The back-off delays.

  function Pow2(k: nat): (p: nat)
    ensures p >= 1
  {
    if k == 0 then 1 else 2 * Pow2(k - 1)
  }

  /** The sleeps after `k` failed attempts in a row: `2**1, 2**2, ..., 2**k`. */
  function Backoff(k: nat): seq<int> {
    if k == 0 then [] else Backoff(k - 1) + [Pow2(k)]
  }

  function Sum(s: seq<int>): int {
    if s == [] then 0 else Sum(s[..|s| - 1]) + s[|s| - 1]
  }

  lemma SumSnoc(s: seq<int>, x: int)
    ensures Sum(s + [x]) == Sum(s) + x
  {
    assert (s + [x])[..|s|] == s;
  }

  lemma {:induction false} SumAppend(a: seq<int>, b: seq<int>)
    ensures Sum(a + b) == Sum(a) + Sum(b)
    decreases |b|
  {
    if b == [] {
      assert a + b == a;
    } else {
      var c := b[..|b| - 1];
      assert a + b == (a + c) + [b[|b| - 1]];
      assert b == c + [b[|b| - 1]];
      SumSnoc(a + c, b[|b| - 1]);
      SumSnoc(c, b[|b| - 1]);
      SumAppend(a, c);
    }
  }

  /** The `i`-th wait after failures is `2**(i+1)`: 2, 4, 8, ... */
  lemma {:induction false} BackoffShape(k: nat)
    ensures |Backoff(k)| == k
    ensures forall i | 0 <= i < k :: Backoff(k)[i] == Pow2(i + 1)
  {
    if k > 0 {
      BackoffShape(k - 1);
    }
  }

  /** `k` failures in a row cost `2**(k+1) - 2` seconds of sleep. */
  lemma {:induction false} BackoffTotal(k: nat)
    ensures Sum(Backoff(k)) == Pow2(k + 1) - 2
  {
    if k > 0 {
      BackoffTotal(k - 1);
      SumSnoc(Backoff(k - 1), Pow2(k));
    }
  }

  /** Total time the attempts in `s` took. */
  function Elapsed(s: seq<Answer>): int {
    if s == [] then 0 else Elapsed(s[..|s| - 1]) + s[|s| - 1].elapsed
  }

  lemma ElapsedStep(s: seq<Answer>, n: nat)
    requires n < |s|
    ensures Elapsed(s[..n + 1]) == Elapsed(s[..n]) + s[n].elapsed
  {
    assert s[..n + 1][..n] == s[..n];
  }

  // ---------------------------------------------------------------------
  // Reading an answer.

  /** `json_response['meta']['result_count']`. */
  function ResultCountOf(body: Json): (r: Result<Json>)
    ensures r.Ok? <==> Has(body, "meta") && Has(body.fields["meta"], "result_count")
    ensures r.Ok? ==> r.value == body.fields["meta"].fields["result_count"]
  {
    var meta :- Field(body, "meta");
    Field(meta, "result_count")
  }

  /** An attempt succeeds when the call returns a body whose result count can be read. */
  predicate Accepted(a: Answer) {
    a.Body? && ResultCountOf(a.json).Ok?
  }

  /** The cursor of the next page, with Null for `None`. */
  function CursorOf(body: Json): (c: Json)
    requires ResultCountOf(body).Ok?
    ensures c.Null? <==> !Has(body.fields["meta"], "next_token") || body.fields["meta"].fields["next_token"].Null?
  {
    var meta := body.fields["meta"];
    if "next_token" in meta.fields then meta.fields["next_token"] else Null
  }

  /** `result_count == 0`, where `False == 0` too. */
  predicate IsZero(resultCount: Json) {
    resultCount == Num(0) || resultCount == Bool(false)
  }

  /** The one-second pause after an empty result. */
  function ZeroPause(resultCount: Json): seq<int> {
    if IsZero(resultCount) then [1] else []
  }

  /** What `result_count is not None and result_count > 0` does with a result count. */
  datatype Tally = Skip | Add(amount: int) | Incomparable

  function TallyOf(resultCount: Json): (t: Tally)
    ensures t.Add? <==> (resultCount.Num? && resultCount.n > 0) || resultCount == Bool(true)
    ensures t.Incomparable? <==> resultCount.Str? || resultCount.Arr? || resultCount.Obj?
    ensures t.Add? ==> t.amount > 0
    ensures resultCount.Num? && t.Add? ==> t.amount == resultCount.n
    ensures resultCount == Bool(true) ==> t == Add(1)
  {
    match resultCount
    case Null => Skip
    case Num(n) => if n > 0 then Add(n) else Skip
    case Bool(b) => if b then Add(1) else Skip
    case _ => Incomparable
  }

  /** An empty result is never written or counted. */
  lemma ZeroIsSkipped(resultCount: Json)
    requires IsZero(resultCount)
    ensures TallyOf(resultCount) == Skip
  {
  }

  // ---------------------------------------------------------------------
  // What one page writes.

  datatype PageWrites = PageWrites(tweets: seq<Row>, users: seq<Row>, places: seq<Row>, news: seq<Row>,
                                   failure: Option<SchemaError>)

  /**
   * The appends of one page: in news mode the news rows; otherwise the tweet
   * rows, then (if those all succeeded) the user rows, then (if the page
   * includes places) the place rows.
   */
  function PageEffect(kind: DataType, accountId: string, body: Json): (w: PageWrites)
    ensures kind == News ==> w.tweets == [] && w.users == [] && w.places == []
    ensures kind != News ==> w.news == []
    ensures w.places != [] ==> PlacesIncluded(body)
  {
    if kind == News then
      var news := Appended(NewsKind, DataRecords(body));
      PageWrites([], [], [], news.rows, news.failure)
    else
      var tweets := Appended(TweetKind(accountId), DataRecords(body));
      if tweets.failure.Some? then PageWrites(tweets.rows, [], [], [], tweets.failure)
      else
        var users := Appended(UserKind, IncludedRecords(body, "users"));
        if users.failure.Some? then PageWrites(tweets.rows, users.rows, [], [], users.failure)
        else if PlacesIncluded(body) then
          var places := Appended(PlaceKind, IncludedRecords(body, "places"));
          PageWrites(tweets.rows, users.rows, places.rows, [], places.failure)
        else PageWrites(tweets.rows, users.rows, [], [], None)
  }

  /** `'places' in json_response['includes'].keys()`. */
  predicate PlacesIncluded(body: Json) {
    Has(body, "includes") && Has(body.fields["includes"], "places")
  }

  /**
   * A replies or quotes page whose records can all be read writes one tweet
   * row per `data` entry and one user row per included user, and place rows
   * exactly when places are included; nothing goes to the news file.
   */
  lemma PageEffectComplete(kind: DataType, accountId: string, body: Json)
    requires kind != News && PageEffect(kind, accountId, body).failure.None?
    ensures var w := PageEffect(kind, accountId, body);
      && DataRecords(body).Ok? && IncludedRecords(body, "users").Ok?
      && |w.tweets| == |DataRecords(body).value|
      && |w.users| == |IncludedRecords(body, "users").value|
      && (PlacesIncluded(body) ==> IncludedRecords(body, "places").Ok?
                                   && |w.places| == |IncludedRecords(body, "places").value|)
      && (!PlacesIncluded(body) ==> w.places == [])
      && w.news == []
  {
    var tweets := Appended(TweetKind(accountId), DataRecords(body));
    assert DataRecords(body).Ok?;
    ExtractPrefix(TweetKind(accountId), DataRecords(body).value);
    assert IncludedRecords(body, "users").Ok?;
    ExtractPrefix(UserKind, IncludedRecords(body, "users").value);
    if PlacesIncluded(body) {
      assert IncludedRecords(body, "places").Ok?;
      ExtractPrefix(PlaceKind, IncludedRecords(body, "places").value);
    }
  }

  /** A news page writes only news rows, one per `data` entry when all can be read. */
  lemma PageEffectNews(accountId: string, body: Json)
    requires PageEffect(News, accountId, body).failure.None?
    ensures var w := PageEffect(News, accountId, body);
      && DataRecords(body).Ok? && |w.news| == |DataRecords(body).value|
      && w.tweets == [] && w.users == [] && w.places == []
  {
    assert DataRecords(body).Ok?;
    ExtractPrefix(NewsKind, DataRecords(body).value);
  }

  /**
   * The appends of one page as src/make_dataset.py:195 calls them: the tweet
   * append is given four arguments while its definition takes three, so in
   * replies and quotes mode the call raises `TypeError` before it writes a
   * row.  None stands for that raise; news mode is unaffected.
   */
  function PageEffectAsWritten(kind: DataType, accountId: string, body: Json): (r: Option<PageWrites>)
    ensures r.Some? <==> kind == News
    ensures r.Some? ==> r.value == PageEffect(kind, accountId, body)
  {
    if kind == News then Some(PageEffect(kind, accountId, body)) else None
  }

  /**
   * A replies or quotes page whose records can all be read, and that holds at
   * least one tweet, is written one row per tweet by the three-argument call
   * and not at all as written.
   */
  lemma ArityMismatchLosesPage(kind: DataType, accountId: string, body: Json)
    requires kind != News && PageEffect(kind, accountId, body).failure.None?
    requires DataRecords(body).Ok? && DataRecords(body).value != []
    ensures PageEffectAsWritten(kind, accountId, body).None?
    ensures |PageEffect(kind, accountId, body).tweets| == |DataRecords(body).value| > 0
  {
    PageEffectComplete(kind, accountId, body);
  }

  /** `k` copies of `x`. */
  function Repeat<T>(x: T, k: nat): seq<T> {
    if k == 0 then [] else Repeat(x, k - 1) + [x]
  }

  lemma {:induction false} RepeatShape<T>(x: T, k: nat)
    ensures |Repeat(x, k)| == k && forall i | 0 <= i < k :: Repeat(x, k)[i] == x
  {
    if k > 0 {
      RepeatShape(x, k - 1);
    }
  }

  /** The index of the first answer at or after `from` whose result count can be read, or `|answers|`. */
  function FirstAccepted(answers: seq<Answer>, from: nat): (n: nat)
    requires from <= |answers|
    ensures from <= n <= |answers|
    ensures n < |answers| ==> Accepted(answers[n])
    decreases |answers| - from
  {
    if from == |answers| || Accepted(answers[from]) then from else FirstAccepted(answers, from + 1)
  }

  /** Every answer before the first accepted one was refused or unreadable. */
  lemma {:induction false} FirstAcceptedIsFirst(answers: seq<Answer>, from: nat)
    requires from <= |answers|
    ensures forall i | from <= i < FirstAccepted(answers, from) :: !Accepted(answers[i])
    decreases |answers| - from
  {
    if from < |answers| && !Accepted(answers[from]) {
      FirstAcceptedIsFirst(answers, from + 1);
    }
  }

  // ---------------------------------------------------------------------
  // The invariants of a run, on plain values.

  /** Every sleep was a positive number of seconds. */
  ghost predicate AllPositive(s: seq<int>)
    decreases |s|
  {
    s == [] || (AllPositive(s[..|s| - 1]) && s[|s| - 1] > 0)
  }

  /** The clock has advanced by exactly the attempts made and the sleeps taken, all of them positive. */
  ghost predicate Clocked(origin: int, done: seq<Answer>, sleeps: seq<int>, now: int) {
    now == origin + Elapsed(done) + Sum(sleeps) && AllPositive(sleeps)
  }

  /** Each reset came at least a full window after the one before it. */
  ghost predicate Spaced(resets: seq<int>)
    decreases |resets|
  {
    |resets| <= 1 || (Spaced(resets[..|resets| - 1]) && resets[|resets| - 2] + WindowSeconds <= resets[|resets| - 1])
  }

  /**
   * The current window started at the last reset (or at the start of the
   * run), the first reset came a full window after the start, and every
   * later reset a full window after the one before it.
   */
  ghost predicate Windows(origin: int, resets: seq<int>, startTime: int) {
    && (resets == [] ==> startTime == origin)
    && (resets != [] ==> startTime == resets[|resets| - 1] && origin + WindowSeconds <= resets[0])
    && Spaced(resets)
  }

  /** No request was issued once `count` had reached `MAX_COUNT`. */
  ghost predicate Budgeted(issued: seq<Issued>)
    decreases |issued|
  {
    issued == [] || (Budgeted(issued[..|issued| - 1]) && issued[|issued| - 1].count < MaxCount)
  }

  /** Any two resets, not only neighbours, are at least a window apart. */
  lemma {:induction false} SpacedPairwise(resets: seq<int>, i: nat, j: nat)
    requires Spaced(resets) && i < j < |resets|
    ensures resets[i] + WindowSeconds <= resets[j]
    decreases |resets|
  {
    var front := resets[..|resets| - 1];
    if j < |resets| - 1 {
      SpacedPairwise(front, i, j);
    } else if i < j - 1 {
      SpacedPairwise(front, i, j - 1);
    }
  }

  /** Every request recorded was issued while `count` was below `MAX_COUNT`. */
  lemma {:induction false} BudgetedEach(issued: seq<Issued>, i: nat)
    requires Budgeted(issued) && i < |issued|
    ensures issued[i].count < MaxCount
    decreases |issued|
  {
    if i < |issued| - 1 {
      BudgetedEach(issued[..|issued| - 1], i);
    }
  }

  lemma ClockedSleep(origin: int, done: seq<Answer>, sleeps: seq<int>, now: int, d: int)
    requires Clocked(origin, done, sleeps, now) && d > 0
    ensures Clocked(origin, done, sleeps + [d], now + d)
  {
    SumSnoc(sleeps, d);
    assert (sleeps + [d])[..|sleeps|] == sleeps;
  }

  lemma {:induction false} SumPositive(s: seq<int>)
    requires AllPositive(s)
    ensures Sum(s) >= |s|
    decreases |s|
  {
    if s != [] {
      SumPositive(s[..|s| - 1]);
    }
  }

  /** A reset a full window after the current window's start keeps the spacing of resets. */
  lemma WindowsReset(origin: int, resets: seq<int>, startTime: int, now: int)
    requires Windows(origin, resets, startTime) && startTime + WindowSeconds <= now
    ensures Windows(origin, resets + [now], now)
  {
    assert (resets + [now])[..|resets|] == resets;
  }

  /** Sleeping out the rest of the window, then resetting it, keeps the clock and the window spacing. */
  lemma WindowTopUp(origin: int, done: seq<Answer>, sleeps: seq<int>, resets: seq<int>, startTime: int, now: int)
    requires Clocked(origin, done, sleeps, now) && Windows(origin, resets, startTime) && startTime <= now
    ensures var t := now - startTime;
      var wake := if t < WindowSeconds then startTime + WindowSeconds else now;
      && Clocked(origin, done, sleeps + (if t < WindowSeconds then [WindowSeconds - t] else []), wake)
      && Windows(origin, resets + [wake], wake)
      && now <= wake
  {
    var t := now - startTime;
    if t < WindowSeconds {
      ClockedSleep(origin, done, sleeps, now, WindowSeconds - t);
      WindowsReset(origin, resets, startTime, startTime + WindowSeconds);
    } else {
      assert sleeps + [] == sleeps;
      WindowsReset(origin, resets, startTime, now);
    }
  }

  lemma BudgetedIssue(issued: seq<Issued>, x: Issued)
    requires Budgeted(issued) && x.count < MaxCount
    ensures Budgeted(issued + [x])
  {
    assert (issued + [x])[..|issued|] == issued;
  }

  lemma {:induction false} BudgetedRepeat(issued: seq<Issued>, x: Issued, k: nat)
    requires Budgeted(issued) && x.count < MaxCount
    ensures Budgeted(issued + Repeat(x, k))
  {
    if k == 0 {
      assert issued + [] == issued;
    } else {
      BudgetedRepeat(issued, x, k - 1);
      BudgetedIssue(issued + Repeat(x, k - 1), x);
      AppendAssociative(issued, Repeat(x, k - 1), [x]);
    }
  }

  /** Total time the attempts `answers[lo..hi]` took. */
  function Spent(answers: seq<Answer>, lo: nat, hi: nat): int
    requires lo <= hi <= |answers|
    decreases hi
  {
    if hi == lo then 0 else Spent(answers, lo, hi - 1) + answers[hi - 1].elapsed
  }

  lemma {:induction false} ElapsedSpent(answers: seq<Answer>, lo: nat, hi: nat)
    requires lo <= hi <= |answers|
    ensures Elapsed(answers[..hi]) == Elapsed(answers[..lo]) + Spent(answers, lo, hi)
    ensures Spent(answers, lo, hi) >= 0
    decreases hi
  {
    if hi > lo {
      ElapsedSpent(answers, lo, hi - 1);
      ElapsedStep(answers, hi - 1);
    }
  }

  lemma {:induction false} AllPositiveAppend(a: seq<int>, b: seq<int>)
    requires AllPositive(a) && AllPositive(b)
    ensures AllPositive(a + b)
    decreases |b|
  {
    if b == [] {
      assert a + b == a;
    } else {
      var front := b[..|b| - 1];
      AllPositiveAppend(a, front);
      assert (a + b)[..|a + b| - 1] == a + front;
    }
  }

  lemma {:induction false} BackoffPositive(k: nat)
    ensures AllPositive(Backoff(k))
  {
    if k > 0 {
      BackoffPositive(k - 1);
      assert (Backoff(k - 1) + [Pow2(k)])[..k - 1 + 1 - 1] == Backoff(k - 1) by {
        BackoffShape(k - 1);
      }
    }
  }

  lemma PositiveZeroPause(s: seq<int>, resultCount: Json)
    requires AllPositive(s)
    ensures AllPositive(s + ZeroPause(resultCount))
  {
    if IsZero(resultCount) {
      assert (s + [1])[..|s|] == s;
    } else {
      assert s + [] == s;
    }
  }

  /** The attempts and sleeps of one call, appended to what came before, keep the clock. */
  lemma ClockedExtend(origin: int, answers: seq<Answer>, from: nat, next: nat, base: seq<int>,
                      pauses: seq<int>, now: int, clock: int)
    requires from <= next <= |answers| && Clocked(origin, answers[..from], base, now)
    requires clock == now + Spent(answers, from, next) + Sum(pauses) && AllPositive(pauses)
    ensures Clocked(origin, answers[..next], base + pauses, clock) && now <= clock
  {
    ElapsedSpent(answers, from, next);
    SumAppend(base, pauses);
    SumPositive(pauses);
    AllPositiveAppend(base, pauses);
  }

  // ---------------------------------------------------------------------
  // The run's inputs and state.

  /** What `main` reads before its loops: the mode, the date bounds, the tables, the network's answers, the start time. */
  datatype Config = Config(kind: DataType, startDate: string, endDate: string, accounts: seq<string>,
                           newsTweets: seq<NewsTweet>, newsAccounts: seq<NewsAccount>,
                           repliesConversations: set<Id>, quotesConversations: set<Id>,
                           answers: seq<Answer>, origin: int)

  /** The inputs of a run from the command line's days and the tables read. */
  function Configure(kind: DataType, startDay: string, endDay: string, accounts: seq<string>,
                     newsTweets: seq<NewsTweet>, newsAccounts: seq<NewsAccount>, conversations: seq<Conversation>,
                     answers: seq<Answer>, origin: int): Config
  {
    Config(kind, StartBound(startDay), EndBound(endDay), accounts, newsTweets, newsAccounts,
           ReplyExclusions(conversations), QuoteExclusions(conversations), answers, origin)
  }

  /** The four CSV files of a run: `tweets_replies.csv`, `users_replies.csv`, `places_replies.csv`, `news_tweets.csv`. */
  datatype Files = Files(tweets: CsvFile, users: CsvFile, places: CsvFile, news: CsvFile)

  predicate Distinct(f: Files) {
    && f.tweets != f.users && f.tweets != f.places && f.tweets != f.news
    && f.users != f.places && f.users != f.news && f.places != f.news
  }

  /**
   * The clock and the rate window: how many answers were used, the time,
   * `n_requests` and `start_time`, and the record of every sleep, every
   * window reset and every request issued.
   */
  datatype Pace = Pace(served: nat, now: int, nRequests: int, startTime: int,
                       sleeps: seq<int>, resets: seq<int>, issued: seq<Issued>)

  /** The invariant of the clock and the window. */
  ghost predicate Paced(c: Config, p: Pace) {
    && p.served <= |c.answers|
    && 0 <= p.nRequests <= RequestCap
    && c.origin <= p.startTime <= p.now
    && Clocked(c.origin, c.answers[..p.served], p.sleeps, p.now)
    && Windows(c.origin, p.resets, p.startTime)
    && Budgeted(p.issued)
  }

  /** `time.sleep(d)`. */
  function Sleep(p: Pace, d: int): Pace {
    p.(now := p.now + d, sleeps := p.sleeps + [d])
  }

  /** A pause keeps the pace: the clock moves on by the pause, recorded as a sleep. */
  lemma SleepPaced(c: Config, p: Pace, d: int)
    requires Paced(c, p) && d > 0
    ensures Paced(c, Sleep(p, d))
  {
    ClockedSleep(c.origin, c.answers[..p.served], p.sleeps, p.now, d);
  }

  /** The loop variables of `main` besides the pace. */
  datatype Loop = Loop(pace: Pace, nextToken: Json, count: int, instanceTweets: int, poolTweets: int,
                       totalTweets: int, nInstances: nat, stop: Option<Stop>)

  // ---------------------------------------------------------------------
  // One page.

  /**
   * How the retry loop ended: with an answer whose result count could be
   * read, or with the script exhausted; `pauses` are the sleeps it took.
   */
  datatype Outcome = Outcome(accepted: bool, errors: nat, response: Json, pace: Pace, pauses: seq<int>)

  /** The pace once the loop is over: `next` answers used, the clock at `clock`, the sleeps and requests appended. */
  function Settle(p: Pace, sent: Issued, next: nat, clock: int, pauses: seq<int>, counted: int): Pace
    requires p.served <= next
  {
    Pace(next, clock, p.nRequests + counted, p.startTime, p.sleeps + pauses, p.resets,
         p.issued + Repeat(sent, next - p.served))
  }

  /**
   * The `while not valid` loop from attempt `next` on, after `errors`
   * failures in a row that slept `pauses`: the request is sent again with
   * the next answer of the script; a readable one ends the loop (with a
   * one-second pause when its result is empty), any other sleeps
   * `2**(errors + 1)` and the loop goes on.
   */
  function RetryFrom(c: Config, p: Pace, sent: Issued, next: nat, clock: int, errors: nat, pauses: seq<int>): Outcome
    requires p.served <= next <= |c.answers|
    decreases |c.answers| - next
  {
    if next == |c.answers| then
      Outcome(false, errors, Null, Settle(p, sent, next, clock, pauses, 0), pauses)
    else
      var answer := c.answers[next];
      var arrived := clock + answer.elapsed;
      if Accepted(answer) then
        var pause := ZeroPause(ResultCountOf(answer.json).value);
        Outcome(true, 0, answer.json, Settle(p, sent, next + 1, arrived + |pause|, pauses + pause, 1), pauses + pause)
      else
        var pause := Pow2(errors + 1);
        RetryFrom(c, p, sent, next + 1, arrived + pause, errors + 1, pauses + [pause])
  }

  /**
   * What the loop does, from a state reached after `next - p.served`
   * failures: it uses the answers up to the first readable one (or all of
   * them), sleeps `2, 4, 8, ...` after the failures (and a second after an
   * empty result), and counts one request against the window only on
   * success.
   */
  lemma {:induction false} RetryFromShape(c: Config, p: Pace, sent: Issued, next: nat, clock: int, errors: nat,
                                          pauses: seq<int>)
    requires p.served <= next <= |c.answers| && errors == next - p.served && pauses == Backoff(errors)
    ensures var o := RetryFrom(c, p, sent, next, clock, errors, pauses);
      var first := FirstAccepted(c.answers, next);
      && (o.accepted <==> first < |c.answers|)
      && o.pace.served == (if o.accepted then first + 1 else |c.answers|)
      && (o.accepted ==> o.errors == 0 && o.response == c.answers[first].json
                         && o.pace.nRequests == p.nRequests + 1
                         && o.pauses == Backoff(first - p.served) + ZeroPause(ResultCountOf(o.response).value))
      && (!o.accepted ==> o.errors == |c.answers| - p.served && o.pace.nRequests == p.nRequests
                          && o.pauses == Backoff(o.errors))
    decreases |c.answers| - next
  {
    if next < |c.answers| && !Accepted(c.answers[next]) {
      RetryFromShape(c, p, sent, next + 1, clock + c.answers[next].elapsed + Pow2(errors + 1), errors + 1,
                     pauses + [Pow2(errors + 1)]);
    }
  }

  /**
   * Whatever way the loop ends, one request was recorded per answer used,
   * at most one request was counted against the window, and the window
   * itself is untouched.
   */
  lemma {:induction false} RetryFromRecords(c: Config, p: Pace, sent: Issued, next: nat, clock: int, errors: nat,
                                            pauses: seq<int>)
    requires p.served <= next <= |c.answers|
    ensures var o := RetryFrom(c, p, sent, next, clock, errors, pauses);
      && next <= o.pace.served <= |c.answers|
      && (o.accepted ==> o.pace.served > next && ResultCountOf(o.response).Ok?)
      && (!o.accepted ==> o.pace.served == |c.answers|)
      && o.pace.issued == p.issued + Repeat(sent, o.pace.served - p.served)
      && o.pace.startTime == p.startTime && o.pace.resets == p.resets
      && p.nRequests <= o.pace.nRequests <= p.nRequests + 1
    decreases |c.answers| - next
  {
    if next < |c.answers| && !Accepted(c.answers[next]) {
      var pause := Pow2(errors + 1);
      RetryFromRecords(c, p, sent, next + 1, clock + c.answers[next].elapsed + pause, errors + 1, pauses + [pause]);
    }
  }

  /** The sleeps the loop took are appended to the run's, and each was positive. */
  lemma {:induction false} RetryFromSleeps(c: Config, p: Pace, sent: Issued, next: nat, clock: int, errors: nat,
                                           pauses: seq<int>)
    requires p.served <= next <= |c.answers| && AllPositive(pauses)
    ensures var o := RetryFrom(c, p, sent, next, clock, errors, pauses);
      o.pace.sleeps == p.sleeps + o.pauses && AllPositive(o.pauses)
    decreases |c.answers| - next
  {
    if next < |c.answers| {
      var answer := c.answers[next];
      if Accepted(answer) {
        PositiveZeroPause(pauses, ResultCountOf(answer.json).value);
      } else {
        var pause := Pow2(errors + 1);
        assert (pauses + [pause])[..|pauses|] == pauses;
        RetryFromSleeps(c, p, sent, next + 1, clock + answer.elapsed + pause, errors + 1, pauses + [pause]);
      }
    }
  }

  /** The clock has moved by the time the attempts took and by the sleeps. */
  lemma {:induction false} RetryFromClock(c: Config, p: Pace, sent: Issued, next: nat, clock: int, errors: nat,
                                          pauses: seq<int>)
    requires p.served <= next <= |c.answers|
    requires clock == p.now + Spent(c.answers, p.served, next) + Sum(pauses)
    ensures var o := RetryFrom(c, p, sent, next, clock, errors, pauses);
      && p.served <= o.pace.served <= |c.answers|
      && o.pace.now == p.now + Spent(c.answers, p.served, o.pace.served) + Sum(o.pauses)
    decreases |c.answers| - next
  {
    if next < |c.answers| {
      var answer := c.answers[next];
      if Accepted(answer) {
        if IsZero(ResultCountOf(answer.json).value) {
          SumSnoc(pauses, 1);
        } else {
          assert pauses + [] == pauses;
        }
      } else {
        var pause := Pow2(errors + 1);
        SumSnoc(pauses, pause);
        RetryFromClock(c, p, sent, next + 1, clock + answer.elapsed + pause, errors + 1, pauses + [pause]);
      }
    }
  }

  /**
   * A pace reached from `p` by attempts that took their time and sleeps
   * that were positive keeps the invariant of the clock and the window (at
   * most 300 requests in it, the clock never going back), and none of its
   * requests went out at `count >= MAX_COUNT`.
   */
  lemma OutcomePaced(c: Config, p: Pace, sent: Issued, q: Pace, pauses: seq<int>)
    requires Paced(c, p) && p.nRequests < RequestCap && sent.count < MaxCount
    requires p.served <= q.served <= |c.answers|
    requires q.sleeps == p.sleeps + pauses && AllPositive(pauses)
    requires q.now == p.now + Spent(c.answers, p.served, q.served) + Sum(pauses)
    requires q.issued == p.issued + Repeat(sent, q.served - p.served)
    requires q.startTime == p.startTime && q.resets == p.resets
    requires p.nRequests <= q.nRequests <= p.nRequests + 1
    ensures Paced(c, q) && q.now >= p.now
  {
    ClockedExtend(c.origin, c.answers, p.served, q.served, p.sleeps, pauses, p.now, q.now);
    BudgetedRepeat(p.issued, sent, q.served - p.served);
  }

  /** What the page loop relies on about the retry loop's outcome. */
  lemma RetryFacts(c: Config, p: Pace, sent: Issued, o: Outcome)
    requires Paced(c, p) && p.nRequests < RequestCap && sent.count < MaxCount
    requires o == RetryFrom(c, p, sent, p.served, p.now, 0, [])
    ensures Paced(c, o.pace) && o.pace.now >= p.now
    ensures o.accepted ==> o.pace.served > p.served && ResultCountOf(o.response).Ok?
    ensures !o.accepted ==> o.pace.served == |c.answers|
  {
    RetryFromRecords(c, p, sent, p.served, p.now, 0, []);
    RetryFromSleeps(c, p, sent, p.served, p.now, 0, []);
    RetryFromClock(c, p, sent, p.served, p.now, 0, []);
    OutcomePaced(c, p, sent, o.pace, o.pauses);
  }

  /**
   * The `while not valid` loop: the request `sent` is issued with answer
   * after answer of the script until one's result count can be read.
   */
  method Retry(c: Config, p: Pace, sent: Issued) returns (o: Outcome)
    requires p.served <= |c.answers|
    ensures o == RetryFrom(c, p, sent, p.served, p.now, 0, [])
  {
    ghost var goal := RetryFrom(c, p, sent, p.served, p.now, 0, []);
    var next, clock, errors, pauses := p.served, p.now, 0, [];
    var accepted, response := false, Null;
    while !accepted
      invariant p.served <= next <= |c.answers|
      invariant !accepted ==> response == Null && RetryFrom(c, p, sent, next, clock, errors, pauses) == goal
      invariant accepted ==> Outcome(true, 0, response, Settle(p, sent, next, clock, pauses, 1), pauses) == goal
      decreases |c.answers| - next, !accepted
    {
      if next == |c.answers| {
        break;
      }
      var answer := c.answers[next];
      next, clock := next + 1, clock + answer.elapsed;
      if Accepted(answer) {
        response, accepted, errors := answer.json, true, 0;
        if IsZero(ResultCountOf(response).value) {
          clock, pauses := clock + 1, pauses + [1];
        } else {
          pauses := pauses + [];
        }
      } else {
        var pause := Pow2(errors + 1);
        clock, pauses, errors := clock + pause, pauses + [pause], errors + 1;
      }
    }
    if accepted {
      o := Outcome(true, 0, response, Settle(p, sent, next, clock, pauses, 1), pauses);
    } else {
      o := Outcome(false, errors, Null, Settle(p, sent, next, clock, pauses, 0), pauses);
    }
  }

  /**
   * The rate-window control: once the window has taken 300 requests, sleep
   * out the rest of its 900 seconds (if any) and open a new window.
   */
  function ControlCaps(p: Pace): Pace {
    if p.nRequests == RequestCap then
      var t := p.now - p.startTime;
      var rest := if t < WindowSeconds then [WindowSeconds - t] else [];
      var wake := if t < WindowSeconds then p.startTime + WindowSeconds else p.now;
      p.(now := wake, nRequests := 0, startTime := wake, sleeps := p.sleeps + rest, resets := p.resets + [wake])
    else p
  }

  /**
   * The control keeps the invariant and leaves room for the next request;
   * a new window opens at least 900 seconds after the previous one, and
   * nothing but the clock and the window changes.
   */
  lemma ControlCapsPaced(c: Config, p: Pace)
    requires Paced(c, p)
    ensures var q := ControlCaps(p);
      && Paced(c, q) && q.nRequests < RequestCap && q.now >= p.now
      && q.served == p.served && q.issued == p.issued
      && (p.nRequests == RequestCap ==> q.startTime >= p.startTime + WindowSeconds && q.resets == p.resets + [q.now])
      && (p.nRequests == RequestCap ==>
            var t := p.now - p.startTime;
            && q.nRequests == 0
            && q.now == q.startTime == (if t < WindowSeconds then p.startTime + WindowSeconds else p.now)
            && q.sleeps == p.sleeps + (if t < WindowSeconds then [WindowSeconds - t] else []))
      && (p.nRequests < RequestCap ==> q == p)
  {
    if p.nRequests == RequestCap {
      WindowTopUp(c.origin, c.answers[..p.served], p.sleeps, p.resets, p.startTime, p.now);
    }
  }

  // ---------------------------------------------------------------------
  // What the loops write and request, as values.

  /** The rows a stretch of the run adds to each of the four files. */
  datatype Output = Output(tweets: seq<Row>, users: seq<Row>, places: seq<Row>, news: seq<Row>)

  const Nothing: Output := Output([], [], [], [])

  /** The rows of one stretch of the run followed by those of the next. */
  function Then(a: Output, b: Output): Output {
    Output(a.tweets + b.tweets, a.users + b.users, a.places + b.places, a.news + b.news)
  }

  lemma ThenNothing(a: Output)
    ensures Then(a, Nothing) == a && Then(Nothing, a) == a
  {
    assert a.tweets + [] == a.tweets && a.users + [] == a.users;
    assert a.places + [] == a.places && a.news + [] == a.news;
  }

  lemma ThenAssociative(a: Output, b: Output, d: Output)
    ensures Then(Then(a, b), d) == Then(a, Then(b, d))
  {
    AppendAssociative(a.tweets, b.tweets, d.tweets);
    AppendAssociative(a.users, b.users, d.users);
    AppendAssociative(a.places, b.places, d.places);
    AppendAssociative(a.news, b.news, d.news);
  }

  /** The rows of the four files. */
  function Contents(files: Files): Output
    reads files.tweets, files.users, files.places, files.news
  {
    Output(files.tweets.rows, files.users.rows, files.places.rows, files.news.rows)
  }

  /** A page that arrived, with the news account it was collected for. */
  datatype Page = Page(accountId: string, body: Json)

  /** What one page adds to the files: its appends when its result count is positive, and nothing otherwise. */
  function Written(kind: DataType, p: Page): Output {
    match ResultCountOf(p.body)
    case Ok(resultCount) =>
      if TallyOf(resultCount).Add? then
        var w := PageEffect(kind, p.accountId, p.body);
        Output(w.tweets, w.users, w.places, w.news)
      else Nothing
    case Err(_) => Nothing
  }

  /** What a sequence of pages adds to the files, page after page. */
  function Writes(kind: DataType, pages: seq<Page>): Output
    decreases |pages|
  {
    if pages == [] then Nothing
    else Then(Writes(kind, pages[..|pages| - 1]), Written(kind, pages[|pages| - 1]))
  }

  /** The pages of two stretches write what the first writes, then what the second writes. */
  lemma {:induction false} WritesAppend(kind: DataType, a: seq<Page>, b: seq<Page>)
    ensures Writes(kind, a + b) == Then(Writes(kind, a), Writes(kind, b))
    decreases |b|
  {
    if b == [] {
      assert a + b == a;
      ThenNothing(Writes(kind, a));
    } else {
      var front := b[..|b| - 1];
      assert (a + b)[..|a + b| - 1] == a + front;
      assert (a + b)[|a + b| - 1] == b[|b| - 1];
      WritesAppend(kind, a, front);
      ThenAssociative(Writes(kind, a), Writes(kind, front), Written(kind, b[|b| - 1]));
    }
  }

  /**
   * What the fetch loops did, in order: the requests sent (one per page
   * asked for), the answers each of them used, the pages that arrived, and
   * the rows written.
   */
  datatype Trace = Trace(requests: seq<Issued>, tries: seq<nat>, pages: seq<Page>, output: Output)

  const NoTrace: Trace := Trace([], [], [], Nothing)

  function Cat(a: Trace, b: Trace): Trace {
    Trace(a.requests + b.requests, a.tries + b.tries, a.pages + b.pages, Then(a.output, b.output))
  }

  lemma CatNoTrace(a: Trace)
    ensures Cat(a, NoTrace) == a && Cat(NoTrace, a) == a
  {
    assert a.requests + [] == a.requests && a.tries + [] == a.tries && a.pages + [] == a.pages;
    ThenNothing(a.output);
  }

  lemma CatAssociative(a: Trace, b: Trace, d: Trace)
    ensures Cat(Cat(a, b), d) == Cat(a, Cat(b, d))
  {
    AppendAssociative(a.requests, b.requests, d.requests);
    AppendAssociative(a.tries, b.tries, d.tries);
    AppendAssociative(a.pages, b.pages, d.pages);
    ThenAssociative(a.output, b.output, d.output);
  }

  /** How a loop ended, and what it did on the way. */
  datatype Pagination = Pagination(final: Loop, trace: Trace)

  // ---------------------------------------------------------------------
  // One page.

  /** The appends of one page, to the files of the run's mode. */
  method StorePage(kind: DataType, files: Files, response: Json, accountId: string) returns (failure: Option<SchemaError>)
    requires Distinct(files)
    modifies files.tweets, files.users, files.places, files.news
    ensures var w := PageEffect(kind, accountId, response);
      && files.tweets.rows == old(files.tweets.rows) + w.tweets
      && files.users.rows == old(files.users.rows) + w.users
      && files.places.rows == old(files.places.rows) + w.places
      && files.news.rows == old(files.news.rows) + w.news
      && failure == w.failure
  {
    if kind == News {
      failure := AppendNews(response, files.news);
      return;
    }
    failure := AppendTweet(response, accountId, files.tweets);
    if failure.Some? {
      return;
    }
    failure := AppendUser(response, files.users);
    if failure.Some? {
      return;
    }
    if PlacesIncluded(response) {
      failure := AppendPlace(response, files.places);
    }
  }

  /**
   * The state after a page arrived: its cursor taken; its records written
   * and counted when its result count is positive, then a second's pause;
   * the rate window controlled.  An uncountable result or an unreadable
   * record stops the run.
   */
  function AfterPage(kind: DataType, accountId: string, response: Json, s: Loop): (t: Loop)
    requires ResultCountOf(response).Ok?
    ensures t.nextToken == CursorOf(response)
    ensures t.pace.served == s.pace.served && t.pace.issued == s.pace.issued
    ensures t.totalTweets == s.totalTweets && t.poolTweets == s.poolTweets && t.nInstances == s.nInstances
    ensures t.stop != s.stop ==> t.stop.Some? && (t.stop.value.NotComparable? || t.stop.value.BadRecord?)
  {
    var resultCount := ResultCountOf(response).value;
    var next := s.(nextToken := CursorOf(response));
    match TallyOf(resultCount)
    case Incomparable => next.(stop := Some(NotComparable(resultCount)))
    case Skip => next.(pace := ControlCaps(s.pace))
    case Add(n) =>
      var failure := PageEffect(kind, accountId, response).failure;
      if failure.Some? then next.(stop := Some(BadRecord(failure.value)))
      else next.(count := s.count + n, instanceTweets := s.instanceTweets + n, pace := ControlCaps(Sleep(s.pace, 1)))
  }

  /**
   * Everything after a page arrived: take its cursor, write and count its
   * records when the result count is positive (then pause a second), and
   * control the rate window.
   */
  method ProcessPage(c: Config, files: Files, response: Json, accountId: string, s: Loop) returns (t: Loop)
    requires Distinct(files) && Paced(c, s.pace) && s.stop.None?
    requires ResultCountOf(response).Ok?
    modifies files.tweets, files.users, files.places, files.news
    ensures t == AfterPage(c.kind, accountId, response, s)
    ensures Contents(files) == Then(old(Contents(files)), Written(c.kind, Page(accountId, response)))
    ensures Paced(c, t.pace) && t.nextToken == CursorOf(response)
    ensures t.totalTweets == s.totalTweets && t.poolTweets == s.poolTweets && t.nInstances == s.nInstances
    ensures var w := PageEffect(c.kind, accountId, response);
      var resultCount := ResultCountOf(response).value;
      match TallyOf(resultCount)
      case Incomparable =>
        && t.stop == Some(NotComparable(resultCount)) && t.count == s.count && t.pace == s.pace
        && unchanged(files.tweets, files.users, files.places, files.news)
      case Skip =>
        && t.stop.None? && t.count == s.count && t.instanceTweets == s.instanceTweets
        && t.pace == ControlCaps(s.pace)
        && unchanged(files.tweets, files.users, files.places, files.news)
      case Add(n) =>
        && files.tweets.rows == old(files.tweets.rows) + w.tweets
        && files.users.rows == old(files.users.rows) + w.users
        && files.places.rows == old(files.places.rows) + w.places
        && files.news.rows == old(files.news.rows) + w.news
        && (w.failure.Some? ==> t.stop == Some(BadRecord(w.failure.value)) && t.count == s.count
                                && t.pace == s.pace)
        && (w.failure.None? ==> t.stop.None? && t.count == s.count + n
                                && t.instanceTweets == s.instanceTweets + n
                                && t.pace == ControlCaps(Sleep(s.pace, 1)))
    ensures t.stop.None? ==> t.pace.nRequests < RequestCap
  {
    var resultCount := ResultCountOf(response).value;
    t := s.(nextToken := CursorOf(response));
    var tally := TallyOf(resultCount);
    if tally.Incomparable? {
      t := t.(stop := Some(NotComparable(resultCount)));
      assert Written(c.kind, Page(accountId, response)) == Nothing;
      ThenNothing(Contents(files));
      return;
    }
    if tally.Add? {
      var failure := StorePage(c.kind, files, response, accountId);
      if failure.Some? {
        t := t.(stop := Some(BadRecord(failure.value)));
        return;
      }
      SleepPaced(c, t.pace, 1);
      t := t.(count := t.count + tally.amount, instanceTweets := t.instanceTweets + tally.amount,
              pace := Sleep(t.pace, 1));
    } else {
      assert Written(c.kind, Page(accountId, response)) == Nothing;
      ThenNothing(Contents(files));
    }
    ControlCapsPaced(c, t.pace);
    t := t.(pace := ControlCaps(t.pace));
  }

  /**
   * One request of the `while flag` loop: what was sent, how many answers
   * it used, the page that came back (None when the script ran out), the
   * rows that page wrote, and the state after it.
   */
  datatype Fetch = Fetch(sent: Issued, tries: nat, page: Option<Page>, output: Output, after: Loop)

  function FetchOf(c: Config, search: string, accountId: string, s: Loop): (f: Fetch)
    requires s.pace.served <= |c.answers|
    ensures s.pace.served <= f.after.pace.served <= |c.answers|
    ensures f.tries == f.after.pace.served - s.pace.served
    ensures f.after.pace.issued == s.pace.issued + Repeat(f.sent, f.tries)
    ensures f.page.None? ==> f.after.stop == Some(Unanswered) && f.after.pace.served == |c.answers|
    ensures f.page.Some? ==> f.after.pace.served > s.pace.served && ResultCountOf(f.page.value.body).Ok?
  {
    var sent := Issued(search, s.nextToken, s.count);
    var o := RetryFrom(c, s.pace, sent, s.pace.served, s.pace.now, 0, []);
    RetryFromRecords(c, s.pace, sent, s.pace.served, s.pace.now, 0, []);
    var tries := o.pace.served - s.pace.served;
    if o.accepted then
      var page := Page(accountId, o.response);
      Fetch(sent, tries, Some(page), Written(c.kind, page), AfterPage(c.kind, accountId, o.response, s.(pace := o.pace)))
    else
      Fetch(sent, tries, None, Nothing, s.(pace := o.pace, stop := Some(Unanswered)))
  }

  /** One pass of the `while flag` loop past its `MAX_COUNT` test: the request, retried until answered, and its page. */
  method FetchPage(c: Config, files: Files, search: string, accountId: string, s: Loop) returns (t: Loop)
    requires Distinct(files) && Paced(c, s.pace) && s.pace.nRequests < RequestCap && s.stop.None?
    requires s.count < MaxCount
    modifies files.tweets, files.users, files.places, files.news
    ensures var f := FetchOf(c, search, accountId, s);
      t == f.after && Contents(files) == Then(old(Contents(files)), f.output)
    ensures t.stop.Some? ==> !t.stop.value.UnknownAccount?
    ensures Paced(c, t.pace) && t.count >= s.count && t.instanceTweets == s.instanceTweets + (t.count - s.count)
    ensures t.totalTweets == s.totalTweets && t.poolTweets == s.poolTweets && t.nInstances == s.nInstances
    ensures t.stop.None? ==> t.pace.nRequests < RequestCap
  {
    var sent := Issued(search, s.nextToken, s.count);
    var o := Retry(c, s.pace, sent);
    RetryFacts(c, s.pace, sent, o);
    if !o.accepted {
      t := s.(pace := o.pace, stop := Some(Unanswered));
      ThenNothing(Contents(files));
      return;
    }
    t := ProcessPage(c, files, o.response, accountId, s.(pace := o.pace));
  }

  // ---------------------------------------------------------------------
  // The loops of `main`, as specifications.

  /** The trace of a single fetch. */
  function Step(f: Fetch): Trace {
    Trace([f.sent], [f.tries], if f.page.Some? then [f.page.value] else [], f.output)
  }

  /** The loop ends after a fetch when the script ran out, the run stopped, or the page had no cursor. */
  predicate Ends(f: Fetch) {
    f.page.None? || f.after.stop.Some? || f.after.nextToken.Null?
  }

  /**
   * The `while flag` loop from state `s`: while `count` is below
   * `MAX_COUNT`, fetch the page the cursor points to, until a page has no
   * cursor, the script runs out or the run stops.
   */
  function Paginate(c: Config, search: string, accountId: string, s: Loop): (r: Pagination)
    requires s.pace.served <= |c.answers|
    ensures s.pace.served <= r.final.pace.served <= |c.answers|
    decreases |c.answers| - s.pace.served, 1
  {
    if s.count >= MaxCount then Pagination(s, NoTrace) else FetchOn(c, search, accountId, s)
  }

  /** The rest of the `while flag` loop once past its `MAX_COUNT` test: one fetch, then the loop again unless it ends there. */
  function FetchOn(c: Config, search: string, accountId: string, s: Loop): (r: Pagination)
    requires s.pace.served <= |c.answers| && s.count < MaxCount
    ensures s.pace.served <= r.final.pace.served <= |c.answers|
    decreases |c.answers| - s.pace.served, 0
  {
    var f := FetchOf(c, search, accountId, s);
    if Ends(f) then Pagination(f.after, Step(f))
    else
      var rest := Paginate(c, search, accountId, f.after);
      Pagination(rest.final, Cat(Step(f), rest.trace))
  }

  /** One pass of the `while flag` loop, as `Paginate` takes it. */
  lemma PaginateStep(c: Config, search: string, accountId: string, s: Loop)
    requires s.pace.served <= |c.answers| && s.count < MaxCount
    ensures var f := FetchOf(c, search, accountId, s);
      && (Ends(f) ==> Paginate(c, search, accountId, s) == Pagination(f.after, Step(f)))
      && (!Ends(f) ==>
            Paginate(c, search, accountId, s) ==
              Pagination(Paginate(c, search, accountId, f.after).final,
                         Cat(Step(f), Paginate(c, search, accountId, f.after).trace)))
  {
  }

  /** One pool instance: its pages, then (unless the run stopped) the instance counted and its tweets added to the pool's. */
  function InstanceRun(c: Config, search: string, accountId: string, s: Loop): (r: Pagination)
    requires s.pace.served <= |c.answers|
    ensures s.pace.served <= r.final.pace.served <= |c.answers|
  {
    var g := Paginate(c, search, accountId, s.(instanceTweets := 0));
    if g.final.stop.Some? then g
    else Pagination(g.final.(nInstances := g.final.nInstances + 1,
                             poolTweets := g.final.poolTweets + g.final.instanceTweets), g.trace)
  }

  /** Every instance of a pool matches the run's mode: account handles in news mode, batches otherwise. */
  predicate FitsMode(kind: DataType, instances: seq<Instance>) {
    forall i | 0 <= i < |instances| :: (kind == News <==> instances[i].Account?)
  }

  /** `for instance in pool`: each instance in order, with the search it calls for, until the run stops. */
  function PoolRun(c: Config, instances: seq<Instance>, account: string, accountId: string, s: Loop): (r: Pagination)
    requires s.pace.served <= |c.answers| && FitsMode(c.kind, instances)
    ensures s.pace.served <= r.final.pace.served <= |c.answers|
    decreases |instances|, 1
  {
    if instances == [] then Pagination(s, NoTrace) else NextInstance(c, instances, account, accountId, s)
  }

  /** The first instance of the pool, then the others unless the run stopped. */
  function NextInstance(c: Config, instances: seq<Instance>, account: string, accountId: string, s: Loop): (r: Pagination)
    requires s.pace.served <= |c.answers| && FitsMode(c.kind, instances) && instances != []
    ensures s.pace.served <= r.final.pace.served <= |c.answers|
    decreases |instances|, 0
  {
    var g := InstanceRun(c, Search(c.kind, instances[0], account), accountId, s);
    if g.final.stop.Some? then g
    else
      var rest := PoolRun(c, instances[1..], account, accountId, g.final);
      Pagination(rest.final, Cat(g.trace, rest.trace))
  }

  /** One pass of `for instance in pool`, as `PoolRun` takes it. */
  lemma PoolRunStep(c: Config, instances: seq<Instance>, account: string, accountId: string, s: Loop)
    requires s.pace.served <= |c.answers| && FitsMode(c.kind, instances) && instances != []
    ensures var g := InstanceRun(c, Search(c.kind, instances[0], account), accountId, s);
      && (g.final.stop.Some? ==> PoolRun(c, instances, account, accountId, s) == g)
      && (g.final.stop.None? ==>
            PoolRun(c, instances, account, accountId, s) ==
              Pagination(PoolRun(c, instances[1..], account, accountId, g.final).final,
                         Cat(g.trace, PoolRun(c, instances[1..], account, accountId, g.final).trace)))
  {
  }

  /**
   * One pass of `for news_account in accounts`: an account without id stops
   * the run; otherwise the pool's tweet count starts at zero, an empty pool
   * is skipped, and any other pool is collected.
   */
  function AccountRun(c: Config, account: string, s: Loop): (r: Pagination)
    requires s.pace.served <= |c.answers|
    ensures s.pace.served <= r.final.pace.served <= |c.answers|
  {
    var accountId := AccountIdOf(c.newsAccounts, account);
    if accountId.None? then Pagination(s.(stop := Some(UnknownAccount(account))), NoTrace)
    else
      var pool := Pool(c.kind, c.newsTweets, accountId.value, account, c.repliesConversations, c.quotesConversations);
      if pool.None? then Pagination(s.(poolTweets := 0), NoTrace)
      else PoolRun(c, pool.value, account, accountId.value, s.(poolTweets := 0))
  }

  /** `total_tweets += pool_tweets`. */
  function Tallied(s: Loop): Loop {
    s.(totalTweets := s.totalTweets + s.poolTweets)
  }

  /**
   * `for news_account in accounts`: each account in order, until the run
   * stops, with each pool's tweets added to the total.
   */
  function RunFrom(c: Config, accounts: seq<string>, s: Loop): (r: Pagination)
    requires s.pace.served <= |c.answers|
    ensures s.pace.served <= r.final.pace.served <= |c.answers|
    decreases |accounts|, 1
  {
    if accounts == [] then Pagination(s, NoTrace) else NextAccount(c, accounts, s)
  }

  /** The first account of the list, then the others unless the run stopped. */
  function NextAccount(c: Config, accounts: seq<string>, s: Loop): (r: Pagination)
    requires s.pace.served <= |c.answers| && accounts != []
    ensures s.pace.served <= r.final.pace.served <= |c.answers|
    decreases |accounts|, 0
  {
    var g := AccountRun(c, accounts[0], s);
    if g.final.stop.Some? then g
    else
      var rest := RunFrom(c, accounts[1..], Tallied(g.final));
      Pagination(rest.final, Cat(g.trace, rest.trace))
  }

  /** One pass of the account loop, as `RunFrom` takes it. */
  lemma AccountStep(c: Config, accounts: seq<string>, s: Loop)
    requires accounts != [] && s.pace.served <= |c.answers|
    ensures var g := AccountRun(c, accounts[0], s);
      && (g.final.stop.Some? ==> RunFrom(c, accounts, s) == g)
      && (g.final.stop.None? ==>
            RunFrom(c, accounts, s) ==
              Pagination(RunFrom(c, accounts[1..], Tallied(g.final)).final,
                         Cat(g.trace, RunFrom(c, accounts[1..], Tallied(g.final)).trace)))
  {
  }

  // ---------------------------------------------------------------------
  // What the loops promise.

  /**
   * The requests of the page loop: a request is sent exactly when `count`
   * is below `MAX_COUNT`, every request but possibly the last was answered
   * with a page, and the first request carries the cursor the loop began
   * with.
   */
  lemma {:induction false} PaginateShape(c: Config, search: string, accountId: string, s: Loop)
    requires s.pace.served <= |c.answers|
    ensures var r := Paginate(c, search, accountId, s);
      var requests, pages := r.trace.requests, r.trace.pages;
      && |r.trace.tries| == |requests|
      && |pages| <= |requests| <= |pages| + 1
      && (requests == [] <==> s.count >= MaxCount)
      && (requests != [] ==> requests[0].cursor == s.nextToken)
    decreases |c.answers| - s.pace.served
  {
    if s.count < MaxCount {
      var f := FetchOf(c, search, accountId, s);
      PaginateStep(c, search, accountId, s);
      if !Ends(f) {
        PaginateShape(c, search, accountId, f.after);
      }
    }
  }

  /**
   * The cursors of the page loop: every page has a result count, and each
   * request after the first carries the cursor of the page before it, which
   * was never null.
   */
  lemma {:induction false} PaginateCursors(c: Config, search: string, accountId: string, s: Loop)
    requires s.pace.served <= |c.answers|
    ensures var r := Paginate(c, search, accountId, s);
      var requests, pages := r.trace.requests, r.trace.pages;
      && |pages| <= |requests| <= |pages| + 1
      && (forall i | 0 <= i < |pages| :: ResultCountOf(pages[i].body).Ok?)
      && (forall i | 0 <= i < |requests| - 1 ::
            requests[i + 1].cursor == CursorOf(pages[i].body) && !CursorOf(pages[i].body).Null?)
    decreases |c.answers| - s.pace.served
  {
    PaginateShape(c, search, accountId, s);
    if s.count < MaxCount {
      var f := FetchOf(c, search, accountId, s);
      PaginateStep(c, search, accountId, s);
      if !Ends(f) {
        var rest := Paginate(c, search, accountId, f.after);
        PaginateShape(c, search, accountId, f.after);
        PaginateCursors(c, search, accountId, f.after);
        var r := Paginate(c, search, accountId, s);
        assert r.trace.requests == [f.sent] + rest.trace.requests;
        assert r.trace.pages == [f.page.value] + rest.trace.pages;
      }
    }
  }


  /**
   * Every request of the page loop carries the instance's search and left
   * below `MAX_COUNT`, and every page is the account's.
   */
  lemma {:induction false} PaginateSearch(c: Config, search: string, accountId: string, s: Loop)
    requires s.pace.served <= |c.answers|
    ensures var r := Paginate(c, search, accountId, s);
      && (forall i | 0 <= i < |r.trace.requests| ::
            r.trace.requests[i].search == search && r.trace.requests[i].count < MaxCount)
      && (forall i | 0 <= i < |r.trace.pages| :: r.trace.pages[i].accountId == accountId)
    decreases |c.answers| - s.pace.served
  {
    if s.count < MaxCount {
      var f := FetchOf(c, search, accountId, s);
      PaginateStep(c, search, accountId, s);
      if !Ends(f) {
        var rest := Paginate(c, search, accountId, f.after);
        PaginateSearch(c, search, accountId, f.after);
        var r := Paginate(c, search, accountId, s);
        assert r.trace.requests == [f.sent] + rest.trace.requests;
        assert r.trace.pages == [f.page.value] + rest.trace.pages;
      }
    }
  }

  /** The requests a page loop recorded, each repeated once per answer it used. */
  function Expand(requests: seq<Issued>, tries: seq<nat>): seq<Issued>
    requires |requests| == |tries|
    decreases |requests|
  {
    if requests == [] then [] else Repeat(requests[0], tries[0]) + Expand(requests[1..], tries[1..])
  }

  /**
   * The page loop records its requests in order, each once per attempt made
   * with it; every request answered with a page took at least one attempt.
   */
  lemma {:induction false} PaginateIssued(c: Config, search: string, accountId: string, s: Loop)
    requires s.pace.served <= |c.answers|
    ensures var r := Paginate(c, search, accountId, s);
      && |r.trace.tries| == |r.trace.requests|
      && r.final.pace.issued == s.pace.issued + Expand(r.trace.requests, r.trace.tries)
      && |r.trace.pages| <= |r.trace.requests|
      && forall i | 0 <= i < |r.trace.pages| :: r.trace.tries[i] >= 1
    decreases |c.answers| - s.pace.served
  {
    var r := Paginate(c, search, accountId, s);
    if s.count >= MaxCount {
      assert s.pace.issued + [] == s.pace.issued;
    } else {
      var f := FetchOf(c, search, accountId, s);
      if Ends(f) {
        assert Expand([f.sent], [f.tries]) == Repeat(f.sent, f.tries) + [];
        assert Repeat(f.sent, f.tries) + [] == Repeat(f.sent, f.tries);
      } else {
        var rest := Paginate(c, search, accountId, f.after);
        PaginateIssued(c, search, accountId, f.after);
        var requests, tries := [f.sent] + rest.trace.requests, [f.tries] + rest.trace.tries;
        assert r.trace.requests == requests && r.trace.tries == tries;
        assert requests[1..] == rest.trace.requests && tries[1..] == rest.trace.tries;
        assert Expand(requests, tries) == Repeat(f.sent, f.tries) + Expand(rest.trace.requests, rest.trace.tries);
        AppendAssociative(s.pace.issued, Repeat(f.sent, f.tries), Expand(rest.trace.requests, rest.trace.tries));
        assert r.trace.pages == [f.page.value] + rest.trace.pages;
      }
    }
  }

  /**
   * How the page loop ends: the script ran out only once every answer was
   * used, and then the last request went unanswered; a loop not stopped
   * ended at `MAX_COUNT` or with a page without cursor; it stops for no
   * account, and leaves the run's other counters alone.
   */
  lemma {:induction false} PaginateEnds(c: Config, search: string, accountId: string, s: Loop)
    requires s.pace.served <= |c.answers| && s.stop.None?
    ensures var r := Paginate(c, search, accountId, s);
      var pages := r.trace.pages;
      && (r.final.stop == Some(Unanswered) ==>
            r.final.pace.served == |c.answers| && |r.trace.requests| == |pages| + 1)
      && (r.final.stop.None? ==>
            r.final.count >= MaxCount
            || (pages != [] && ResultCountOf(pages[|pages| - 1].body).Ok? && CursorOf(pages[|pages| - 1].body).Null?))
      && (r.final.stop.Some? ==> !r.final.stop.value.UnknownAccount?)
      && r.final.totalTweets == s.totalTweets && r.final.poolTweets == s.poolTweets
      && r.final.nInstances == s.nInstances
    decreases |c.answers| - s.pace.served
  {
    PaginateShape(c, search, accountId, s);
    if s.count < MaxCount {
      var f := FetchOf(c, search, accountId, s);
      PaginateStep(c, search, accountId, s);
      if !Ends(f) {
        var rest := Paginate(c, search, accountId, f.after);
        PaginateEnds(c, search, accountId, f.after);
        PaginateShape(c, search, accountId, f.after);
        var r := Paginate(c, search, accountId, s);
        assert r.trace.requests == [f.sent] + rest.trace.requests;
        assert r.trace.pages == [f.page.value] + rest.trace.pages;
      }
    }
  }

  /** Every row the page loop writes comes from its pages, page after page, as each page's appends write them. */
  lemma {:induction false} PaginateWrites(c: Config, search: string, accountId: string, s: Loop)
    requires s.pace.served <= |c.answers|
    ensures var r := Paginate(c, search, accountId, s);
      r.trace.output == Writes(c.kind, r.trace.pages)
    decreases |c.answers| - s.pace.served
  {
    if s.count < MaxCount {
      var f := FetchOf(c, search, accountId, s);
      var first := if f.page.Some? then [f.page.value] else [];
      assert Writes(c.kind, first) == f.output by {
        if f.page.Some? {
          ThenNothing(Written(c.kind, f.page.value));
          assert first[..0] == [];
        }
      }
      if !Ends(f) {
        var rest := Paginate(c, search, accountId, f.after);
        PaginateWrites(c, search, accountId, f.after);
        WritesAppend(c.kind, first, rest.trace.pages);
      }
    }
  }

  /**
   * Every request of an instance carries its search, every page is of the
   * account's id, and the rows written are those of the pages, in order.
   */
  lemma InstanceTrace(c: Config, search: string, accountId: string, s: Loop)
    requires s.pace.served <= |c.answers|
    ensures var r := InstanceRun(c, search, accountId, s);
      && (forall i | 0 <= i < |r.trace.requests| :: r.trace.requests[i].search == search)
      && (forall i | 0 <= i < |r.trace.pages| :: r.trace.pages[i].accountId == accountId)
      && r.trace.output == Writes(c.kind, r.trace.pages)
  {
    PaginateSearch(c, search, accountId, s.(instanceTweets := 0));
    PaginateWrites(c, search, accountId, s.(instanceTweets := 0));
    assert InstanceRun(c, search, accountId, s).trace == Paginate(c, search, accountId, s.(instanceTweets := 0)).trace;
  }

  /**
   * The requests of one pool instance as the API receives them: the
   * full-archive endpoint, the instance's search, the run's date bounds, a
   * page size of 500, and the request's cursor as `next_token`.
   */
  lemma InstanceRequests(c: Config, search: string, accountId: string, s: Loop)
    requires s.pace.served <= |c.answers|
    ensures var requests := InstanceRun(c, search, accountId, s).trace.requests;
      forall i | 0 <= i < |requests| ::
        var q := RequestOf(c, requests[i]);
        && q.url == SearchEndpoint && q.params["query"] == Str(search)
        && q.params["start_time"] == Str(c.startDate) && q.params["end_time"] == Str(c.endDate)
        && q.params["max_results"] == Num(MaxResults) && q.params["next_token"] == requests[i].cursor
  {
    PaginateSearch(c, search, accountId, s.(instanceTweets := 0));
    assert InstanceRun(c, search, accountId, s).trace == Paginate(c, search, accountId, s.(instanceTweets := 0)).trace;
  }


  /** `search` is the search of one of the pool's instances. */
  predicate SearchOfPool(kind: DataType, instances: seq<Instance>, account: string, search: string)
    requires FitsMode(kind, instances)
  {
    exists j | 0 <= j < |instances| :: search == Search(kind, instances[j], account)
  }

  /** The first instance's search, and every search of the later instances, are searches of the pool. */
  lemma SearchOfPoolFront(kind: DataType, instances: seq<Instance>, account: string, search: string)
    requires FitsMode(kind, instances) && instances != []
    ensures search == Search(kind, instances[0], account) ==> SearchOfPool(kind, instances, account, search)
    ensures FitsMode(kind, instances[1..]) && (SearchOfPool(kind, instances[1..], account, search) ==>
                                               SearchOfPool(kind, instances, account, search))
  {
    assert FitsMode(kind, instances[1..]) by {
      forall i | 0 <= i < |instances[1..]|
        ensures kind == News <==> instances[1..][i].Account?
      {
        assert instances[1..][i] == instances[i + 1];
      }
    }
    if SearchOfPool(kind, instances[1..], account, search) {
      var j :| 0 <= j < |instances[1..]| && search == Search(kind, instances[1..][j], account);
      assert instances[1..][j] == instances[j + 1];
    }
  }

  /** Each request of a pool carries the search of one of its instances. */
  lemma {:induction false} PoolSearches(c: Config, instances: seq<Instance>, account: string, accountId: string, s: Loop)
    requires s.pace.served <= |c.answers| && FitsMode(c.kind, instances)
    ensures var requests := PoolRun(c, instances, account, accountId, s).trace.requests;
      forall i | 0 <= i < |requests| :: SearchOfPool(c.kind, instances, account, requests[i].search)
    decreases |instances|
  {
    if instances != [] {
      var search := Search(c.kind, instances[0], account);
      var g := InstanceRun(c, search, accountId, s);
      PoolRunStep(c, instances, account, accountId, s);
      InstanceTrace(c, search, accountId, s);
      var requests := PoolRun(c, instances, account, accountId, s).trace.requests;
      forall i | 0 <= i < |g.trace.requests|
        ensures SearchOfPool(c.kind, instances, account, g.trace.requests[i].search)
      {
        SearchOfPoolFront(c.kind, instances, account, g.trace.requests[i].search);
      }
      if g.final.stop.None? {
        var rest := PoolRun(c, instances[1..], account, accountId, g.final).trace.requests;
        PoolSearches(c, instances[1..], account, accountId, g.final);
        assert requests == g.trace.requests + rest;
        forall i | |g.trace.requests| <= i < |requests|
          ensures SearchOfPool(c.kind, instances, account, requests[i].search)
        {
          assert requests[i] == rest[i - |g.trace.requests|];
          SearchOfPoolFront(c.kind, instances, account, requests[i].search);
        }
      }
    }
  }

  /** Every page of a pool is the account's, and the rows written are the pages' rows, in order. */
  lemma {:induction false} PoolPages(c: Config, instances: seq<Instance>, account: string, accountId: string, s: Loop)
    requires s.pace.served <= |c.answers| && FitsMode(c.kind, instances)
    ensures var r := PoolRun(c, instances, account, accountId, s);
      && (forall i | 0 <= i < |r.trace.pages| :: r.trace.pages[i].accountId == accountId)
      && r.trace.output == Writes(c.kind, r.trace.pages)
    decreases |instances|
  {
    if instances == [] {
      assert Writes(c.kind, []) == Nothing;
    } else {
      var search := Search(c.kind, instances[0], account);
      var g := InstanceRun(c, search, accountId, s);
      PoolRunStep(c, instances, account, accountId, s);
      InstanceTrace(c, search, accountId, s);
      if g.final.stop.None? {
        var r := PoolRun(c, instances, account, accountId, s);
        var rest := PoolRun(c, instances[1..], account, accountId, g.final);
        PoolPages(c, instances[1..], account, accountId, g.final);
        WritesAppend(c.kind, g.trace.pages, rest.trace.pages);
        forall i | 0 <= i < |r.trace.pages|
          ensures r.trace.pages[i].accountId == accountId
        {
          if i >= |g.trace.pages| {
            assert r.trace.pages[i] == rest.trace.pages[i - |g.trace.pages|];
          }
        }
      }
    }
  }

  /**
   * A pool counts every one of its instances unless the run stopped, never
   * stops for an unknown account, and leaves the run's total alone.
   */
  lemma {:induction false} PoolCounts(c: Config, instances: seq<Instance>, account: string, accountId: string, s: Loop)
    requires s.pace.served <= |c.answers| && FitsMode(c.kind, instances) && s.stop.None?
    ensures var r := PoolRun(c, instances, account, accountId, s);
      && (r.final.stop.None? ==> r.final.nInstances == s.nInstances + |instances|)
      && (r.final.stop.Some? ==> !r.final.stop.value.UnknownAccount?)
      && r.final.totalTweets == s.totalTweets
    decreases |instances|
  {
    if instances != [] {
      var search := Search(c.kind, instances[0], account);
      var g := InstanceRun(c, search, accountId, s);
      PoolRunStep(c, instances, account, accountId, s);
      PaginateEnds(c, search, accountId, s.(instanceTweets := 0));
      if g.final.stop.None? {
        PoolCounts(c, instances[1..], account, accountId, g.final);
      }
    }
  }

  /** Every account of the list has an id. */
  predicate AllKnown(c: Config, accounts: seq<string>) {
    forall k | 0 <= k < |accounts| :: AccountIdOf(c.newsAccounts, accounts[k]).Some?
  }

  /** `accounts[i]` is the first account of the list without an id. */
  predicate FirstUnknown(c: Config, accounts: seq<string>, i: int) {
    0 <= i < |accounts| && AccountIdOf(c.newsAccounts, accounts[i]).None? && AllKnown(c, accounts[..i])
  }

  /** A known account in front of a list keeps what is known about the rest of it. */
  lemma KnownHead(c: Config, accounts: seq<string>, i: int)
    requires accounts != [] && AccountIdOf(c.newsAccounts, accounts[0]).Some?
    ensures AllKnown(c, accounts[1..]) ==> AllKnown(c, accounts)
    ensures FirstUnknown(c, accounts[1..], i) ==> FirstUnknown(c, accounts, i + 1)
  {
    if AllKnown(c, accounts[1..]) {
      forall k | 0 < k < |accounts|
        ensures AccountIdOf(c.newsAccounts, accounts[k]).Some?
      {
        assert accounts[k] == accounts[1..][k - 1];
      }
    }
    if FirstUnknown(c, accounts[1..], i) {
      assert accounts[i + 1] == accounts[1..][i];
      var before, later := accounts[..i + 1], accounts[1..][..i];
      forall k | 0 < k < |before|
        ensures AccountIdOf(c.newsAccounts, before[k]).Some?
      {
        assert before[k] == later[k - 1];
      }
    }
  }

  /** One account's pass stops for an unknown account exactly when the account has no id. */
  lemma AccountStops(c: Config, account: string, s: Loop)
    requires s.pace.served <= |c.answers| && s.stop.None?
    ensures var stop := AccountRun(c, account, s).final.stop;
      (stop.Some? && stop.value.UnknownAccount?) <==> AccountIdOf(c.newsAccounts, account).None?
    ensures var stop := AccountRun(c, account, s).final.stop;
      stop.Some? && stop.value.UnknownAccount? ==> stop.value.account == account
  {
    var accountId := AccountIdOf(c.newsAccounts, account);
    if accountId.Some? {
      var pool := Pool(c.kind, c.newsTweets, accountId.value, account, c.repliesConversations, c.quotesConversations);
      if pool.Some? {
        PoolCounts(c, pool.value, account, accountId.value, s.(poolTweets := 0));
      }
    }
  }

  /**
   * The account loop takes the accounts in list order: it stops for an
   * unknown account only at the first account without an id, and a run that
   * did not stop found an id for every account.
   */
  lemma {:induction false} RunStops(c: Config, accounts: seq<string>, s: Loop)
    requires s.pace.served <= |c.answers| && s.stop.None?
    ensures var stop := RunFrom(c, accounts, s).final.stop;
      && (stop.Some? && stop.value.UnknownAccount? ==>
            exists i | FirstUnknown(c, accounts, i) :: accounts[i] == stop.value.account)
      && (stop.None? ==> AllKnown(c, accounts))
    decreases |accounts|
  {
    if accounts != [] {
      var g := AccountRun(c, accounts[0], s);
      AccountStep(c, accounts, s);
      AccountStops(c, accounts[0], s);
      if AccountIdOf(c.newsAccounts, accounts[0]).None? {
        assert FirstUnknown(c, accounts, 0);
      } else if g.final.stop.None? {
        var next := Tallied(g.final);
        var stop := RunFrom(c, accounts[1..], next).final.stop;
        RunStops(c, accounts[1..], next);
        KnownHead(c, accounts, 0);
        if stop.Some? && stop.value.UnknownAccount? {
          var i :| FirstUnknown(c, accounts[1..], i) && accounts[1..][i] == stop.value.account;
          KnownHead(c, accounts, i);
        }
      }
    }
  }

  /** `id` is the id of one of the accounts of the list. */
  predicate OfAccounts(c: Config, accounts: seq<string>, id: string) {
    exists k | 0 <= k < |accounts| :: AccountIdOf(c.newsAccounts, accounts[k]) == Some(id)
  }

  /** The pages of one account's pass are of that account's id, and they write what that pass writes. */
  lemma AccountPages(c: Config, account: string, s: Loop)
    requires s.pace.served <= |c.answers|
    ensures var r := AccountRun(c, account, s);
      && (forall i | 0 <= i < |r.trace.pages| :: AccountIdOf(c.newsAccounts, account) == Some(r.trace.pages[i].accountId))
      && r.trace.output == Writes(c.kind, r.trace.pages)
  {
    var accountId := AccountIdOf(c.newsAccounts, account);
    if accountId.Some? {
      var pool := Pool(c.kind, c.newsTweets, accountId.value, account, c.repliesConversations, c.quotesConversations);
      if pool.Some? {
        PoolPages(c, pool.value, account, accountId.value, s.(poolTweets := 0));
        return;
      }
    }
    assert Writes(c.kind, []) == Nothing;
  }

  /** Every page of the run is of an account of the list. */
  lemma {:induction false} RunPages(c: Config, accounts: seq<string>, s: Loop)
    requires s.pace.served <= |c.answers|
    ensures var pages := RunFrom(c, accounts, s).trace.pages;
      forall i | 0 <= i < |pages| :: OfAccounts(c, accounts, pages[i].accountId)
    decreases |accounts|
  {
    if accounts != [] {
      var g := AccountRun(c, accounts[0], s);
      AccountStep(c, accounts, s);
      AccountPages(c, accounts[0], s);
      var pages, first := RunFrom(c, accounts, s).trace.pages, g.trace.pages;
      forall i | 0 <= i < |first|
        ensures OfAccounts(c, accounts, first[i].accountId)
      {
        assert AccountIdOf(c.newsAccounts, accounts[0]) == Some(first[i].accountId);
      }
      if g.final.stop.None? {
        var next := Tallied(g.final);
        var rest := RunFrom(c, accounts[1..], next).trace.pages;
        RunPages(c, accounts[1..], next);
        assert pages == first + rest;
        forall i | |first| <= i < |pages|
          ensures OfAccounts(c, accounts, pages[i].accountId)
        {
          var id := rest[i - |first|].accountId;
          assert pages[i].accountId == id;
          var k :| 0 <= k < |accounts[1..]| && AccountIdOf(c.newsAccounts, accounts[1..][k]) == Some(id);
          assert accounts[k + 1] == accounts[1..][k];
        }
      }
    }
  }

  /** The rows the run writes are its pages' rows, page after page. */
  lemma {:induction false} RunWrites(c: Config, accounts: seq<string>, s: Loop)
    requires s.pace.served <= |c.answers|
    ensures var r := RunFrom(c, accounts, s);
      r.trace.output == Writes(c.kind, r.trace.pages)
    decreases |accounts|
  {
    if accounts == [] {
      assert Writes(c.kind, []) == Nothing;
    } else {
      var g := AccountRun(c, accounts[0], s);
      AccountStep(c, accounts, s);
      AccountPages(c, accounts[0], s);
      if g.final.stop.None? {
        var next := Tallied(g.final);
        RunWrites(c, accounts[1..], next);
        WritesAppend(c.kind, g.trace.pages, RunFrom(c, accounts[1..], next).trace.pages);
      }
    }
  }

  // ---------------------------------------------------------------------
  // The loops of `main`.

  /**
   * `while flag`: fetch a page and process it, until a page has no cursor or
   * `count` reached `MAX_COUNT`.
   */
  method CollectPages(c: Config, files: Files, search: string, accountId: string, s: Loop) returns (t: Loop)
    requires Distinct(files) && Paced(c, s.pace) && s.pace.nRequests < RequestCap && s.stop.None?
    modifies files.tweets, files.users, files.places, files.news
    ensures var r := Paginate(c, search, accountId, s);
      t == r.final && Contents(files) == Then(old(Contents(files)), r.trace.output)
    ensures Paced(c, t.pace) && t.count >= s.count && t.instanceTweets == s.instanceTweets + (t.count - s.count)
    ensures t.totalTweets == s.totalTweets && t.poolTweets == s.poolTweets && t.nInstances == s.nInstances
    ensures t.stop.Some? ==> !t.stop.value.UnknownAccount?
    ensures t.stop.None? ==> t.pace.nRequests < RequestCap
  {
    ghost var goal := Paginate(c, search, accountId, s);
    ghost var done := NoTrace;
    ThenNothing(Contents(files));
    CatNoTrace(goal.trace);
    t := s;
    var flag := true;
    while flag
      invariant Paced(c, t.pace) && t.pace.nRequests < RequestCap && t.stop.None?
      invariant t.count >= s.count && t.instanceTweets == s.instanceTweets + (t.count - s.count)
      invariant t.totalTweets == s.totalTweets && t.poolTweets == s.poolTweets && t.nInstances == s.nInstances
      invariant flag ==>
        goal == Pagination(Paginate(c, search, accountId, t).final, Cat(done, Paginate(c, search, accountId, t).trace))
      invariant !flag ==> goal == Pagination(t, done)
      invariant Contents(files) == Then(old(Contents(files)), done.output)
      decreases |c.answers| - t.pace.served, flag
    {
      if t.count >= MaxCount {
        CatNoTrace(done);
        break;
      }
      ghost var f := FetchOf(c, search, accountId, t);
      PaginateStep(c, search, accountId, t);
      t := FetchPage(c, files, search, accountId, t);
      ThenAssociative(old(Contents(files)), done.output, f.output);
      if t.stop.Some? || t.nextToken.Null? {
        assert Ends(f);
        done := Cat(done, Step(f));
        if t.stop.Some? {
          return;
        }
        flag := false;
      } else {
        CatAssociative(done, Step(f), Paginate(c, search, accountId, t).trace);
        done := Cat(done, Step(f));
      }
    }
  }

  /**
   * One pool instance: its page loop, begun with no tweets for the
   * instance; then the instance is counted and its tweets added to the
   * pool's total.
   */
  method CollectInstance(c: Config, files: Files, search: string, accountId: string, s: Loop) returns (t: Loop)
    requires Distinct(files) && Paced(c, s.pace) && s.pace.nRequests < RequestCap && s.stop.None?
    modifies files.tweets, files.users, files.places, files.news
    ensures var r := InstanceRun(c, search, accountId, s);
      t == r.final && Contents(files) == Then(old(Contents(files)), r.trace.output)
    ensures Paced(c, t.pace) && t.count >= s.count && t.totalTweets == s.totalTweets
    ensures t.stop.Some? ==> !t.stop.value.UnknownAccount?
    ensures t.stop.None? ==> t.pace.nRequests < RequestCap && t.poolTweets == s.poolTweets + (t.count - s.count)
  {
    t := CollectPages(c, files, search, accountId, s.(instanceTweets := 0));
    if t.stop.None? {
      t := t.(nInstances := t.nInstances + 1, poolTweets := t.poolTweets + t.instanceTweets);
    }
  }

  /** Where the pool loop stands after the pass of instance `j`, for the invariants of `CollectPool`. */
  lemma PoolAdvance(c: Config, instances: seq<Instance>, account: string, accountId: string, j: nat, s: Loop,
                    goal: Pagination, done: Trace)
    requires j < |instances| && s.pace.served <= |c.answers| && FitsMode(c.kind, instances)
    requires goal == Pagination(PoolRun(c, instances[j..], account, accountId, s).final,
                                Cat(done, PoolRun(c, instances[j..], account, accountId, s).trace))
    ensures FitsMode(c.kind, instances[j..]) && FitsMode(c.kind, instances[j + 1..])
    ensures var g := InstanceRun(c, Search(c.kind, instances[j], account), accountId, s);
      && (g.final.stop.Some? ==> goal == Pagination(g.final, Cat(done, g.trace)))
      && (g.final.stop.None? ==>
            goal == Pagination(PoolRun(c, instances[j + 1..], account, accountId, g.final).final,
                               Cat(Cat(done, g.trace), PoolRun(c, instances[j + 1..], account, accountId, g.final).trace)))
  {
    var g := InstanceRun(c, Search(c.kind, instances[j], account), accountId, s);
    assert instances[j..][0] == instances[j] && instances[j..][1..] == instances[j + 1..];
    PoolRunStep(c, instances[j..], account, accountId, s);
    if g.final.stop.None? {
      CatAssociative(done, g.trace, PoolRun(c, instances[j + 1..], account, accountId, g.final).trace);
    }
  }

  /**
   * `for instance in pool`: every instance with the search it calls for;
   * the pool's tweets are what the instances counted.
   */
  method CollectPool(c: Config, files: Files, instances: seq<Instance>, account: string, accountId: string, s: Loop)
    returns (t: Loop)
    requires Distinct(files) && Paced(c, s.pace) && s.pace.nRequests < RequestCap && s.stop.None?
    requires FitsMode(c.kind, instances)
    modifies files.tweets, files.users, files.places, files.news
    ensures var r := PoolRun(c, instances, account, accountId, s);
      t == r.final && Contents(files) == Then(old(Contents(files)), r.trace.output)
    ensures Paced(c, t.pace) && t.count >= s.count && t.totalTweets == s.totalTweets
    ensures t.stop.Some? ==> !t.stop.value.UnknownAccount?
    ensures t.stop.None? ==> t.pace.nRequests < RequestCap && t.poolTweets == s.poolTweets + (t.count - s.count)
  {
    ghost var goal := PoolRun(c, instances, account, accountId, s);
    ghost var done := NoTrace;
    ThenNothing(Contents(files));
    t := s;
    for j := 0 to |instances|
      invariant Paced(c, t.pace) && t.pace.nRequests < RequestCap && t.stop.None?
      invariant t.count >= s.count && t.totalTweets == s.totalTweets
      invariant t.poolTweets == s.poolTweets + (t.count - s.count)
      invariant goal == Pagination(PoolRun(c, instances[j..], account, accountId, t).final,
                                   Cat(done, PoolRun(c, instances[j..], account, accountId, t).trace))
      invariant Contents(files) == Then(old(Contents(files)), done.output)
    {
      var search := Search(c.kind, instances[j], account);
      ghost var g := InstanceRun(c, search, accountId, t);
      PoolAdvance(c, instances, account, accountId, j, t, goal, done);
      t := CollectInstance(c, files, search, accountId, t);
      ThenAssociative(old(Contents(files)), done.output, g.trace.output);
      done := Cat(done, g.trace);
      if t.stop.Some? {
        return;
      }
    }
    CatNoTrace(done);
  }

  /** `create_url(search, START_DATE, END_DATE, MAX_RESULTS)` sent with the cursor of a recorded request. */
  function RequestOf(c: Config, sent: Issued): Request {
    RequestFor(sent.search, c.startDate, c.endDate, sent.cursor)
  }

  /** A configured run sends the command line's days as its first and last instants. */
  lemma ConfiguredRequest(kind: DataType, startDay: string, endDay: string, accounts: seq<string>,
                          newsTweets: seq<NewsTweet>, newsAccounts: seq<NewsAccount>, conversations: seq<Conversation>,
                          answers: seq<Answer>, origin: int, sent: Issued)
    ensures var q := RequestOf(Configure(kind, startDay, endDay, accounts, newsTweets, newsAccounts, conversations,
                                         answers, origin), sent);
      && q.params["start_time"] == Str(startDay + StartOfDay) && q.params["end_time"] == Str(endDay + EndOfDay)
  {
  }

  /** The state of `main` before its loops. */
  function Initial(c: Config): Loop {
    Loop(Pace(0, c.origin, 0, c.origin, [], [], []), Null, 0, 0, 0, 0, 0, None)
  }

  /** `main` begins with nothing served, no request in the window, and the window opened at the start. */
  lemma InitialPaced(c: Config)
    ensures Paced(c, Initial(c).pace) && Initial(c).pace.nRequests < RequestCap
  {
    assert c.answers[..0] == [];
  }

  /**
   * One account of `main`'s account loop: look up the account's id (an
   * unknown account stops the run), plan its pool (an empty pool skips it),
   * and collect every instance of the pool.
   */
  method CollectAccount(c: Config, files: Files, account: string, s: Loop) returns (t: Loop)
    requires Distinct(files) && Paced(c, s.pace) && s.pace.nRequests < RequestCap && s.stop.None?
    requires s.totalTweets == s.count
    modifies files.tweets, files.users, files.places, files.news
    ensures var r := AccountRun(c, account, s);
      t == r.final && Contents(files) == Then(old(Contents(files)), r.trace.output)
    ensures Paced(c, t.pace)
    ensures t.stop.Some? && t.stop.value.UnknownAccount? ==>
      t.stop.value.account == account && AccountIdOf(c.newsAccounts, account).None?
    ensures t.stop.None? ==> t.pace.nRequests < RequestCap && Tallied(t).totalTweets == t.count
  {
    ThenNothing(Contents(files));
    var accountId := AccountIdOf(c.newsAccounts, account);
    if accountId.None? {
      t := s.(stop := Some(UnknownAccount(account)));
      return;
    }
    t := s.(poolTweets := 0);
    var pool := Pool(c.kind, c.newsTweets, accountId.value, account, c.repliesConversations, c.quotesConversations);
    if pool.Some? {
      t := CollectPool(c, files, pool.value, account, accountId.value, t);
    }
  }

  /** Where the account loop stands after the pass of account `i`, for the invariants of `Run`. */
  lemma AccountAdvance(c: Config, i: nat, s: Loop, goal: Pagination, done: Trace)
    requires i < |c.accounts| && s.pace.served <= |c.answers|
    requires goal.final == RunFrom(c, c.accounts[i..], s).final
    requires goal.trace == Cat(done, RunFrom(c, c.accounts[i..], s).trace)
    ensures var g := AccountRun(c, c.accounts[i], s);
      && (g.final.stop.Some? ==> goal == Pagination(g.final, Cat(done, g.trace)))
      && (g.final.stop.None? ==>
            && goal.final == RunFrom(c, c.accounts[i + 1..], Tallied(g.final)).final
            && goal.trace == Cat(Cat(done, g.trace), RunFrom(c, c.accounts[i + 1..], Tallied(g.final)).trace))
  {
    var g := AccountRun(c, c.accounts[i], s);
    assert c.accounts[i..][0] == c.accounts[i] && c.accounts[i..][1..] == c.accounts[i + 1..];
    AccountStep(c, c.accounts[i..], s);
    if g.final.stop.None? {
      CatAssociative(done, g.trace, RunFrom(c, c.accounts[i + 1..], Tallied(g.final)).trace);
    }
  }

  /** The account loop of `main`: every account in order, until the run stops. */
  method Run(c: Config, files: Files) returns (s: Loop)
    requires Distinct(files)
    modifies files.tweets, files.users, files.places, files.news
    ensures var r := RunFrom(c, c.accounts, Initial(c));
      s == r.final && Contents(files) == Then(old(Contents(files)), r.trace.output)
    ensures Paced(c, s.pace)
    ensures s.stop.None? ==> s.totalTweets == s.count
    ensures s.stop.Some? && s.stop.value.UnknownAccount? ==>
      s.stop.value.account in c.accounts && AccountIdOf(c.newsAccounts, s.stop.value.account).None?
  {
    ghost var goal := RunFrom(c, c.accounts, Initial(c));
    ghost var done := NoTrace;
    ThenNothing(Contents(files));
    s := Initial(c);
    InitialPaced(c);
    assert c.accounts[0..] == c.accounts;
    CatNoTrace(goal.trace);
    for i := 0 to |c.accounts|
      invariant Paced(c, s.pace) && s.pace.nRequests < RequestCap && s.stop.None? && s.totalTweets == s.count
      invariant goal.final == RunFrom(c, c.accounts[i..], s).final
      invariant goal.trace == Cat(done, RunFrom(c, c.accounts[i..], s).trace)
      invariant Contents(files) == Then(old(Contents(files)), done.output)
    {
      ghost var g := AccountRun(c, c.accounts[i], s);
      AccountAdvance(c, i, s, goal, done);
      s := CollectAccount(c, files, c.accounts[i], s);
      ThenAssociative(old(Contents(files)), done.output, g.trace.output);
      done := Cat(done, g.trace);
      if s.stop.Some? {
        return;
      }
      s := Tallied(s);
    }
    CatNoTrace(done);
  }
}
