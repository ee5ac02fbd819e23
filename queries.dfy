/**
 * What one request asks for: the search expression of a pool instance
 * (src/make_dataset.py, `search`), the day bounds of the date range
 * (`START_DATE`, `END_DATE`) and the endpoint parameter table of
 * `create_url` (src/collect/collect.py).
 */
module Queries {
  import opened Values
  import opened Planning

  /** `MAX_RESULTS`: the page size asked for. */
  const MaxResults: int := 500

  /** `sep.join(parts)`. */
  function Join(sep: string, parts: seq<string>): string
    decreases |parts|
  {
    if |parts| == 0 then ""
    else if |parts| == 1 then parts[0]
    else parts[0] + sep + Join(sep, parts[1..])
  }

  const ReplySeparator: string := " OR conversation_id:"
  const QuoteSeparator: string := " OR url:"

  // The fixed text around the variable parts of the three searches.
  const ReplyHead: string := "(conversation_id:"
  const ReplyTail: string := ") lang:en is:reply -is:retweet to:"
  const QuoteHead: string := "(url:"
  const QuoteTail: string := ") lang:en -is:reply -is:retweet is:quote"
  const NewsHead: string := "(context:123.1220701888179359745) from:"
  const NewsTail: string := " lang:en -is:retweet -is:reply"

  /** The replies search for a batch of conversation ids of `account`. */
  function ReplyQuery(ids: seq<Id>, account: string): string
  {
    ReplyHead + Join(ReplySeparator, ids) + ReplyTail + account
  }

  /** The quotes search for a batch of conversation ids. */
  function QuoteQuery(ids: seq<Id>): string
  {
    QuoteHead + Join(QuoteSeparator, ids) + QuoteTail
  }

  /** The news search for one account handle. */
  function NewsQuery(handle: string): string
  {
    NewsHead + handle + NewsTail
  }

  /** The search expression for one pool instance, chosen by the collection kind. */
  function Search(kind: DataType, instance: Instance, account: string): string
    requires kind == News <==> instance.Account?
  {
    match kind
    case Replies => ReplyQuery(instance.ids, account)
    case Quotes => QuoteQuery(instance.ids)
    case News => NewsQuery(instance.handle)
  }

  const StartOfDay: string := "T00:00:00.000Z"
  const EndOfDay: string := "T23:59:59.000Z"

  /** `START_DATE`: the first instant of the start day. */
  function StartBound(day: string): string { day + StartOfDay }

  /** `END_DATE`: the last whole second of the end day. */
  function EndBound(day: string): string { day + EndOfDay }

  /** The day a bound was built from: the bound without its 14-character time of day. */
  function DayOf(bound: string): string
    requires |bound| >= 14
  {
    bound[..|bound| - 14]
  }

  /** Both bounds keep the day as given and append the fixed time of day. */
  lemma BoundsRoundTrip(day: string)
    ensures DayOf(StartBound(day)) == day && StartBound(day)[|day|..] == StartOfDay
    ensures DayOf(EndBound(day)) == day && EndBound(day)[|day|..] == EndOfDay
  {
    assert |StartOfDay| == 14 && |EndOfDay| == 14;
  }

  const SearchEndpoint: string := "https://api.twitter.com/2/tweets/search/all"

  /** The names of the parameters `create_url` fills in. */
  const ParameterNames: set<string> := {
    "query", "start_time", "end_time", "max_results", "expansions",
    "tweet.fields", "user.fields", "place.fields", "next_token" }

  const Expansions: string := "author_id,in_reply_to_user_id,geo.place_id"
  const TweetFields: string :=
    "id,text,author_id,in_reply_to_user_id,geo,conversation_id,created_at,lang,public_metrics,referenced_tweets,reply_settings,source"
  const UserFields: string := "id,name,username,created_at,description,public_metrics,verified"
  const PlaceFields: string := "full_name,id,country,country_code,geo,name,place_type"

  /** `create_url(keyword, start_date, end_date, max_results)`: the endpoint and its parameter table. */
  function CreateUrl(keyword: string, startDate: string, endDate: string, maxResults: int): (r: (string, map<string, Json>))
    ensures r.0 == SearchEndpoint
    ensures r.1.Keys == ParameterNames
    ensures r.1["query"] == Str(keyword) && r.1["start_time"] == Str(startDate)
    ensures r.1["end_time"] == Str(endDate) && r.1["max_results"] == Num(maxResults)
    ensures r.1["expansions"] == Str(Expansions) && r.1["tweet.fields"] == Str(TweetFields)
    ensures r.1["user.fields"] == Str(UserFields) && r.1["place.fields"] == Str(PlaceFields)
    ensures r.1["next_token"] == Obj(map[])
  {
    (SearchEndpoint,
     map["query" := Str(keyword),
         "start_time" := Str(startDate),
         "end_time" := Str(endDate),
         "max_results" := Num(maxResults),
         "expansions" := Str(Expansions),
         "tweet.fields" := Str(TweetFields),
         "user.fields" := Str(UserFields),
         "place.fields" := Str(PlaceFields),
         "next_token" := Obj(map[])])
  }

  /** `params['next_token'] = next_token` of `connect_to_endpoint`: only the cursor entry changes. */
  function WithCursor(params: map<string, Json>, cursor: Json): (r: map<string, Json>)
    ensures r.Keys == params.Keys + {"next_token"}
    ensures r["next_token"] == cursor
    ensures forall k | k in params && k != "next_token" :: r[k] == params[k]
  {
    params["next_token" := cursor]
  }

  /** A request as it leaves for the API: the endpoint and the parameters with the current cursor. */
  datatype Request = Request(url: string, params: map<string, Json>)

  function RequestFor(search: string, startDate: string, endDate: string, cursor: Json): (r: Request)
    ensures r.url == SearchEndpoint && r.params.Keys == ParameterNames
    ensures r.params["query"] == Str(search) && r.params["next_token"] == cursor
    ensures r.params["start_time"] == Str(startDate) && r.params["end_time"] == Str(endDate)
    ensures r.params["max_results"] == Num(MaxResults)
  {
    var (url, params) := CreateUrl(search, startDate, endDate, MaxResults);
    Request(url, WithCursor(params, cursor))
  }

  // ---------------------------------------------------------------------
  // Counting the " OR " separators of a disjunction.

  const Or: string := " OR "

  /** The number of positions at which `p` occurs in `s` (overlaps included). */
  function Occurrences(s: string, p: string): nat
    requires |p| > 0
    decreases |s|
  {
    if |s| < |p| then 0
    else (if s[..|p|] == p then 1 else 0) + Occurrences(s[1..], p)
  }

  /** No character of `s` among the last `|p| - 1` can start an occurrence of `p`. */
  predicate NoStartNearEnd(s: string, p: string)
    requires |p| > 0
  {
    forall i | 0 <= i < |s| && |s| - |p| < i :: s[i] != p[0]
  }

  /** Occurrences add up over a concatenation when none can straddle the seam. */
  lemma {:induction false} OccurrencesAppend(a: string, b: string, p: string)
    requires |p| > 0 && NoStartNearEnd(a, p)
    ensures Occurrences(a + b, p) == Occurrences(a, p) + Occurrences(b, p)
    decreases |a|
  {
    if a != [] {
      assert (a + b)[1..] == a[1..] + b;
      OccurrencesAppend(a[1..], b, p);
      if |a| >= |p| {
        assert (a + b)[..|p|] == a[..|p|];
      } else {
        assert a[0] != p[0];
        if |a + b| >= |p| {
          assert (a + b)[..|p|][0] == a[0];
        }
      }
    } else {
      assert a + b == b;
    }
  }

  /** A string lacking one character of `p` holds no occurrence of `p`. */
  lemma {:induction false} NoOccurrencesWithout(s: string, p: string, j: nat)
    requires j < |p| && p[j] !in s
    ensures Occurrences(s, p) == 0
    decreases |s|
  {
    if |s| >= |p| {
      assert s[..|p|][j] == s[j];
      assert s[..|p|] != p;
      assert forall c :: c in s[1..] ==> c in s;
      NoOccurrencesWithout(s[1..], p, j);
    }
  }

  /** A word without spaces, such as a numeric id or an account handle. */
  predicate Spaceless(s: string) { ' ' !in s }

  lemma SpacelessHasNoOr(s: string)
    requires Spaceless(s)
    ensures NoStartNearEnd(s, Or) && Occurrences(s, Or) == 0
  {
    NoOccurrencesWithout(s, Or, 0);
  }

  /** A separator that holds " OR " once and cannot start another one at its end. */
  predicate OrSeparator(sep: string)
  {
    NoStartNearEnd(sep, Or) && Occurrences(sep, Or) == 1
  }

  /** " OR " followed by a word without spaces or capital O is such a separator. */
  lemma OrThenWord(sep: string, word: string)
    requires sep == Or + word && |word| >= 3 && Spaceless(word) && 'O' !in word
    ensures OrSeparator(sep)
  {
    assert sep[..4] == Or;
    assert sep[1..] == "OR" + (" " + word);
    assert forall c :: c in " " + word ==> c == ' ' || c in word;
    NoOccurrencesWithout(" " + word, Or, 1);
    OccurrencesAppend("OR", " " + word, Or);
  }

  lemma ReplySeparatorHoldsOneOr()
    ensures OrSeparator(ReplySeparator)
  {
    OrThenWord(ReplySeparator, "conversation_id:");
  }

  lemma QuoteSeparatorHoldsOneOr()
    ensures OrSeparator(QuoteSeparator)
  {
    OrThenWord(QuoteSeparator, "url:");
  }

  /** Joining `n` spaceless ids with such a separator, then a tail, puts `n - 1` separators before the tail. */
  lemma {:induction false} JoinOccurrences(sep: string, ids: seq<string>, tail: string)
    requires OrSeparator(sep) && ids != []
    requires forall i | 0 <= i < |ids| :: Spaceless(ids[i])
    ensures Occurrences(Join(sep, ids) + tail, Or) == |ids| - 1 + Occurrences(tail, Or)
    decreases |ids|
  {
    SpacelessHasNoOr(ids[0]);
    if |ids| == 1 {
      OccurrencesAppend(ids[0], tail, Or);
    } else {
      var rest := Join(sep, ids[1..]) + tail;
      JoinOccurrences(sep, ids[1..], tail);
      assert Join(sep, ids) + tail == ids[0] + (sep + rest);
      OccurrencesAppend(sep, rest, Or);
      OccurrencesAppend(ids[0], sep + rest, Or);
    }
  }

  /** A fixed text without capital O that ends without a space, then a spaceless word: no " OR ". */
  lemma TextThenWord(text: string, word: string)
    requires 'O' !in text && NoStartNearEnd(text, Or) && Spaceless(word)
    ensures Occurrences(text + word, Or) == 0
  {
    NoOccurrencesWithout(text, Or, 1);
    SpacelessHasNoOr(word);
    OccurrencesAppend(text, word, Or);
  }

  /** `head + sep.join(ids) + tail`, with no " OR " in head or tail, holds `n - 1` of them. */
  lemma DisjunctionSeparators(head: string, sep: string, ids: seq<string>, tail: string)
    requires 'O' !in head && NoStartNearEnd(head, Or) && Occurrences(tail, Or) == 0
    requires OrSeparator(sep) && ids != []
    requires forall i | 0 <= i < |ids| :: Spaceless(ids[i])
    ensures Occurrences(head + Join(sep, ids) + tail, Or) == |ids| - 1
  {
    JoinOccurrences(sep, ids, tail);
    NoOccurrencesWithout(head, Or, 1);
    OccurrencesAppend(head, Join(sep, ids) + tail, Or);
    assert head + Join(sep, ids) + tail == head + (Join(sep, ids) + tail);
  }

  /** The same with a fixed tail that has no capital O. */
  lemma DisjunctionSeparatorsFixedTail(head: string, sep: string, ids: seq<string>, tail: string)
    requires 'O' !in head && NoStartNearEnd(head, Or) && 'O' !in tail
    requires OrSeparator(sep) && ids != []
    requires forall i | 0 <= i < |ids| :: Spaceless(ids[i])
    ensures Occurrences(head + Join(sep, ids) + tail, Or) == |ids| - 1
  {
    NoOccurrencesWithout(tail, Or, 1);
    DisjunctionSeparators(head, sep, ids, tail);
  }

  lemma ReplyTailHasNoOr(account: string)
    requires Spaceless(account)
    ensures Occurrences(ReplyTail + account, Or) == 0
  {
    TextThenWord(ReplyTail, account);
  }

  // The fixed texts hold no capital O, and the heads end in no space.
  lemma ReplyHeadFits() ensures 'O' !in ReplyHead && NoStartNearEnd(ReplyHead, Or) { }
  lemma QuoteHeadFits() ensures 'O' !in QuoteHead && NoStartNearEnd(QuoteHead, Or) { }
  lemma QuoteTailFits() ensures 'O' !in QuoteTail { }
  lemma NewsHeadFits() ensures 'O' !in NewsHead && NoStartNearEnd(NewsHead, Or) { }
  lemma NewsTailFits() ensures 'O' !in NewsTail { }

  lemma ReplyQueryShape(ids: seq<Id>, account: string)
    ensures ReplyQuery(ids, account) == ReplyHead + Join(ReplySeparator, ids) + (ReplyTail + account)
  {
  }

  lemma ReplyPartsSeparators(ids: seq<Id>, account: string)
    requires ids != [] && Spaceless(account)
    requires forall i | 0 <= i < |ids| :: Spaceless(ids[i])
    ensures Occurrences(ReplyHead + Join(ReplySeparator, ids) + (ReplyTail + account), Or) == |ids| - 1
  {
    ReplyHeadFits();
    ReplySeparatorHoldsOneOr();
    ReplyTailHasNoOr(account);
    DisjunctionSeparators(ReplyHead, ReplySeparator, ids, ReplyTail + account);
  }

  /** A batch of `n` conversation ids gives a replies search with `n - 1` " OR " separators. */
  lemma ReplyQuerySeparators(ids: seq<Id>, account: string)
    requires ids != [] && Spaceless(account)
    requires forall i | 0 <= i < |ids| :: Spaceless(ids[i])
    ensures Occurrences(ReplyQuery(ids, account), Or) == |ids| - 1
  {
    ReplyQueryShape(ids, account);
    ReplyPartsSeparators(ids, account);
  }

  lemma QuoteQueryShape(ids: seq<Id>)
    ensures QuoteQuery(ids) == QuoteHead + Join(QuoteSeparator, ids) + QuoteTail
  {
  }

  lemma QuotePartsSeparators(ids: seq<Id>, tail: string)
    requires ids != [] && tail == QuoteTail
    requires forall i | 0 <= i < |ids| :: Spaceless(ids[i])
    ensures Occurrences(QuoteHead + Join(QuoteSeparator, ids) + tail, Or) == |ids| - 1
  {
    QuoteHeadFits();
    QuoteTailFits();
    QuoteSeparatorHoldsOneOr();
    DisjunctionSeparatorsFixedTail(QuoteHead, QuoteSeparator, ids, tail);
  }

  /** A batch of `n` conversation ids gives a quotes search with `n - 1` " OR " separators. */
  lemma QuoteQuerySeparators(ids: seq<Id>)
    requires ids != []
    requires forall i | 0 <= i < |ids| :: Spaceless(ids[i])
    ensures Occurrences(QuoteQuery(ids), Or) == |ids| - 1
  {
    QuoteQueryShape(ids);
    QuotePartsSeparators(ids, QuoteTail);
  }

  lemma NewsQueryShape(handle: string)
    ensures NewsQuery(handle) == NewsHead + (handle + NewsTail)
  {
  }

  lemma NewsPartsHaveNoOr(handle: string)
    requires Spaceless(handle)
    ensures Occurrences(NewsHead + (handle + NewsTail), Or) == 0
  {
    NewsHeadFits();
    NewsTailFits();
    WordBetweenTexts(NewsHead, handle, NewsTail);
  }

  /** A spaceless word between two texts without capital O, the first ending in no space: no " OR ". */
  lemma WordBetweenTexts(head: string, word: string, tail: string)
    requires 'O' !in head && NoStartNearEnd(head, Or) && Spaceless(word) && 'O' !in tail
    ensures Occurrences(head + (word + tail), Or) == 0
  {
    SpacelessHasNoOr(word);
    NoOccurrencesWithout(tail, Or, 1);
    OccurrencesAppend(word, tail, Or);
    NoOccurrencesWithout(head, Or, 1);
    OccurrencesAppend(head, word + tail, Or);
  }

  /** The news search names one account and holds no disjunction. */
  lemma NewsQueryHasNoOr(handle: string)
    requires Spaceless(handle)
    ensures Occurrences(NewsQuery(handle), Or) == 0
  {
    NewsQueryShape(handle);
    NewsPartsHaveNoOr(handle);
  }
}
