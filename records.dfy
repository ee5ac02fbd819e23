/**
 * The CSV rows of src/collect/collect.py: how `append_news_to_csv`,
 * `append_tweet_to_csv`, `append_user_to_csv` and `append_place_to_csv`
 * turn one record of an API page into one row, and how a loop over a page's
 * records stops at the first record it cannot read.
 */
module Records {
  import opened Values

  /** A CSV cell: a value copied from the record, or a `created_at` parsed into a date-time. */
  datatype Cell = Value(v: Json) | Moment(text: string)

  type Row = seq<Cell>

  /** The four record loops; the tweet loop also carries the news account id of its fallback. */
  datatype RowKind = NewsKind | TweetKind(accountId: string) | UserKind | PlaceKind

  /** The `public_metrics` counters a tweet row reads. */
  predicate TweetMetrics(m: Json) {
    Has(m, "retweet_count") && Has(m, "reply_count") && Has(m, "like_count") && Has(m, "quote_count")
  }

  /** The `public_metrics` counters a user row reads. */
  predicate UserMetrics(m: Json) {
    Has(m, "followers_count") && Has(m, "following_count") && Has(m, "tweet_count") && Has(m, "listed_count")
  }

  // ---------------------------------------------------------------------
  // Single reads, as the source writes them: `t[key]`, `t[k0][k1]`,
  // `dateutil.parser.parse(t[key])` and the optional `geo`.

  function Read(t: Json, key: string): (r: Result<Cell>)
    ensures r.Ok? <==> Has(t, key)
    ensures r.Ok? ==> r.value == Value(t.fields[key])
  {
    var v :- Field(t, key);
    Ok(Value(v))
  }

  function ReadIn(t: Json, k0: string, k1: string): (r: Result<Cell>)
    ensures r.Ok? <==> Has(t, k0) && Has(t.fields[k0], k1)
    ensures r.Ok? ==> r.value == Value(t.fields[k0].fields[k1])
  {
    var inner :- Field(t, k0);
    var v :- Field(inner, k1);
    Ok(Value(v))
  }

  /** A time stamp must be a string for the parser; the parse itself is not modelled. */
  function ReadTime(t: Json, key: string): (r: Result<Cell>)
    ensures r.Ok? <==> Has(t, key) && t.fields[key].Str?
    ensures r.Ok? ==> r.value == Moment(t.fields[key].s)
  {
    var v :- Field(t, key);
    if v.Str? then Ok(Moment(v.s)) else Err(NotAString(key))
  }

  /** `geo`: the place id when the record has a `geo` entry, else a single space. */
  function ReadGeo(t: Json): (r: Result<Cell>)
    ensures r.Ok? <==> GeoReadable(t)
    ensures r.Ok? ==> r.value == GeoCell(t)
  {
    if Has(t, "geo") then ReadIn(t, "geo", "place_id") else Ok(Value(Str(" ")))
  }

  predicate GeoReadable(t: Json) {
    Has(t, "geo") ==> Has(t.fields["geo"], "place_id")
  }

  function GeoCell(t: Json): Cell
    requires GeoReadable(t)
  {
    if Has(t, "geo") then Value(t.fields["geo"].fields["place_id"]) else Value(Str(" "))
  }

  predicate TimeReadable(t: Json, key: string) {
    Has(t, key) && t.fields[key].Str?
  }

  // ---------------------------------------------------------------------
  // append_news_to_csv

  /** What a news record must hold for its row to be written. */
  predicate NewsReadable(t: Json) {
    && Has(t, "author_id") && TimeReadable(t, "created_at") && GeoReadable(t)
    && Has(t, "id") && Has(t, "conversation_id") && Has(t, "lang")
    && Has(t, "public_metrics") && TweetMetrics(t.fields["public_metrics"])
    && Has(t, "source") && Has(t, "text")
  }

  /** One news record to its 12-column row, the reads done in the source's order. */
  function NewsRow(t: Json): (r: Result<Row>)
    ensures r.Ok? <==> NewsReadable(t)
    ensures r.Ok? ==>
      var m := t.fields["public_metrics"].fields;
      r.value == [Value(t.fields["id"]), Value(t.fields["conversation_id"]), Value(t.fields["author_id"]),
                  Moment(t.fields["created_at"].s), GeoCell(t), Value(t.fields["lang"]),
                  Value(m["like_count"]), Value(m["quote_count"]), Value(m["reply_count"]),
                  Value(m["retweet_count"]), Value(t.fields["source"]), Value(t.fields["text"])]
  {
    var authorId :- Read(t, "author_id");
    var createdAt :- ReadTime(t, "created_at");
    var geo :- ReadGeo(t);
    var tweetId :- Read(t, "id");
    var conversationId :- Read(t, "conversation_id");
    var lang :- Read(t, "lang");
    var retweets :- ReadIn(t, "public_metrics", "retweet_count");
    var replies :- ReadIn(t, "public_metrics", "reply_count");
    var likes :- ReadIn(t, "public_metrics", "like_count");
    var quotes :- ReadIn(t, "public_metrics", "quote_count");
    var source :- Read(t, "source");
    var text :- Read(t, "text");
    Ok([tweetId, conversationId, authorId, createdAt, geo, lang, likes, quotes, replies, retweets, source, text])
  }

  // ---------------------------------------------------------------------
  // append_tweet_to_csv

  /** `tweet['referenced_tweets'][0]['type']` can be read whenever `referenced_tweets` is present. */
  predicate ReferenceReadable(t: Json) {
    Has(t, "referenced_tweets") ==>
      var refs := t.fields["referenced_tweets"];
      refs.Arr? && |refs.items| > 0 && Has(refs.items[0], "type")
  }

  /** `is_quote`: the first referenced tweet is the quoted one. */
  predicate IsQuote(t: Json)
    requires ReferenceReadable(t)
  {
    Has(t, "referenced_tweets") && t.fields["referenced_tweets"].items[0].fields["type"] == Str("quoted")
  }

  /** A quote belongs to the conversation of the tweet it quotes; any other tweet to its own. */
  predicate ConversationReadable(t: Json)
    requires ReferenceReadable(t)
  {
    if IsQuote(t) then Has(t.fields["referenced_tweets"].items[0], "id") else Has(t, "conversation_id")
  }

  function ConversationCell(t: Json): Cell
    requires ReferenceReadable(t) && ConversationReadable(t)
  {
    if IsQuote(t) then Value(t.fields["referenced_tweets"].items[0].fields["id"])
    else Value(t.fields["conversation_id"])
  }

  /** `in_reply_to_user_id`, falling back to the news account id. */
  function ReplyToCell(t: Json, accountId: string): Cell {
    if Has(t, "in_reply_to_user_id") then Value(t.fields["in_reply_to_user_id"]) else Value(Str(accountId))
  }

  predicate TweetReadable(t: Json) {
    && Has(t, "author_id") && TimeReadable(t, "created_at") && GeoReadable(t)
    && ReferenceReadable(t) && Has(t, "id") && ConversationReadable(t) && Has(t, "lang")
    && Has(t, "public_metrics") && TweetMetrics(t.fields["public_metrics"])
    && Has(t, "source") && Has(t, "text")
  }

  function ReadIsQuote(t: Json): (r: Result<bool>)
    ensures r.Ok? <==> ReferenceReadable(t)
    ensures r.Ok? ==> r.value == IsQuote(t)
  {
    if Has(t, "referenced_tweets") then
      var first :- Item(t.fields["referenced_tweets"], 0);
      var kind :- Field(first, "type");
      Ok(kind == Str("quoted"))
    else Ok(false)
  }

  function ReadConversation(t: Json, isQuote: bool): (r: Result<Cell>)
    requires ReferenceReadable(t) && isQuote == IsQuote(t)
    ensures r.Ok? <==> ConversationReadable(t)
    ensures r.Ok? ==> r.value == ConversationCell(t)
  {
    if !isQuote then Read(t, "conversation_id")
    else
      var first := t.fields["referenced_tweets"].items[0];
      Read(first, "id")
  }

  /** One reply or quote record to its 14-column row, the reads done in the source's order. */
  function TweetRow(t: Json, accountId: string): (r: Result<Row>)
    ensures r.Ok? <==> TweetReadable(t)
    ensures r.Ok? ==>
      var m := t.fields["public_metrics"].fields;
      r.value == [Value(t.fields["id"]), ConversationCell(t), Value(t.fields["author_id"]),
                  ReplyToCell(t, accountId), Value(Bool(IsQuote(t))),
                  Moment(t.fields["created_at"].s), GeoCell(t), Value(t.fields["lang"]),
                  Value(m["like_count"]), Value(m["quote_count"]), Value(m["reply_count"]),
                  Value(m["retweet_count"]), Value(t.fields["source"]), Value(t.fields["text"])]
  {
    var authorId :- Read(t, "author_id");
    var createdAt :- ReadTime(t, "created_at");
    var geo :- ReadGeo(t);
    var isQuote :- ReadIsQuote(t);
    var tweetId :- Read(t, "id");
    var conversationId :- ReadConversation(t, isQuote);
    var inReplyTo := ReplyToCell(t, accountId);
    var lang :- Read(t, "lang");
    var retweets :- ReadIn(t, "public_metrics", "retweet_count");
    var replies :- ReadIn(t, "public_metrics", "reply_count");
    var likes :- ReadIn(t, "public_metrics", "like_count");
    var quotes :- ReadIn(t, "public_metrics", "quote_count");
    var source :- Read(t, "source");
    var text :- Read(t, "text");
    Ok([tweetId, conversationId, authorId, inReplyTo, Value(Bool(isQuote)), createdAt, geo, lang,
        likes, quotes, replies, retweets, source, text])
  }

  // ---------------------------------------------------------------------
  // append_user_to_csv and append_place_to_csv

  predicate UserReadable(u: Json) {
    && Has(u, "id") && Has(u, "username") && Has(u, "name") && Has(u, "description")
    && Has(u, "verified") && TimeReadable(u, "created_at")
    && Has(u, "public_metrics") && UserMetrics(u.fields["public_metrics"])
  }

  /** One user record to its 10-column row. */
  function UserRow(u: Json): (r: Result<Row>)
    ensures r.Ok? <==> UserReadable(u)
    ensures r.Ok? ==>
      var m := u.fields["public_metrics"].fields;
      r.value == [Value(u.fields["id"]), Value(u.fields["username"]), Value(u.fields["name"]),
                  Value(u.fields["description"]), Value(u.fields["verified"]), Moment(u.fields["created_at"].s),
                  Value(m["followers_count"]), Value(m["following_count"]), Value(m["tweet_count"]),
                  Value(m["listed_count"])]
  {
    var authorId :- Read(u, "id");
    var username :- Read(u, "username");
    var displayName :- Read(u, "name");
    var description :- Read(u, "description");
    var verified :- Read(u, "verified");
    var createdAt :- ReadTime(u, "created_at");
    var followers :- ReadIn(u, "public_metrics", "followers_count");
    var following :- ReadIn(u, "public_metrics", "following_count");
    var tweets :- ReadIn(u, "public_metrics", "tweet_count");
    var listed :- ReadIn(u, "public_metrics", "listed_count");
    Ok([authorId, username, displayName, description, verified, createdAt, followers, following, tweets, listed])
  }

  predicate PlaceReadable(p: Json) {
    Has(p, "id") && Has(p, "full_name") && Has(p, "place_type") && Has(p, "name") && Has(p, "country_code")
  }

  /** One place record to its 5-column row. */
  function PlaceRow(p: Json): (r: Result<Row>)
    ensures r.Ok? <==> PlaceReadable(p)
    ensures r.Ok? ==>
      r.value == [Value(p.fields["id"]), Value(p.fields["full_name"]), Value(p.fields["place_type"]),
                  Value(p.fields["name"]), Value(p.fields["country_code"])]
  {
    var geo :- Read(p, "id");
    var fullName :- Read(p, "full_name");
    var placeType :- Read(p, "place_type");
    var name :- Read(p, "name");
    var countryCode :- Read(p, "country_code");
    Ok([geo, fullName, placeType, name, countryCode])
  }

  // ---------------------------------------------------------------------
  // The record loops.

  function Width(kind: RowKind): nat {
    match kind
    case NewsKind => 12
    case TweetKind(_) => 14
    case UserKind => 10
    case PlaceKind => 5
  }

  function RowOf(kind: RowKind, record: Json): Result<Row> {
    match kind
    case NewsKind => NewsRow(record)
    case TweetKind(accountId) => TweetRow(record, accountId)
    case UserKind => UserRow(record)
    case PlaceKind => PlaceRow(record)
  }

  /** Every row a loop writes has the width of its kind. */
  lemma RowWidth(kind: RowKind, record: Json)
    requires RowOf(kind, record).Ok?
    ensures |RowOf(kind, record).value| == Width(kind)
  {
    match kind
    case NewsKind => assert |NewsRow(record).value| == 12;
    case TweetKind(accountId) => assert |TweetRow(record, accountId).value| == 14;
    case UserKind => assert |UserRow(record).value| == 10;
    case PlaceKind => assert |PlaceRow(record).value| == 5;
  }

  /** What a loop over records wrote before it stopped, and the schema error that stopped it, if any. */
  datatype Extraction = Extraction(rows: seq<Row>, failure: Option<SchemaError>)

  /**
   * A loop over the outcomes of reading each record in turn: the rows in
   * order, up to the first record that cannot be read; that record's error
   * ends the loop and no later outcome is looked at.
   */
  function Gather(steps: seq<Result<Row>>): (e: Extraction)
    ensures |e.rows| <= |steps|
    decreases |steps|, 1
  {
    if steps == [] then Extraction([], None) else GatherFirst(steps)
  }

  /** `Gather` once there is a first outcome: its error, or its row followed by the rest. */
  function GatherFirst(steps: seq<Result<Row>>): (e: Extraction)
    requires steps != []
    ensures |e.rows| <= |steps|
    decreases |steps|, 0
  {
    match steps[0]
    case Err(error) => Extraction([], Some(error))
    case Ok(row) =>
      var rest := Gather(steps[1..]);
      Extraction([row] + rest.rows, rest.failure)
  }

  /** How a record of `kind` is read: `RowOf` as a value, for the loop shared by the four appenders. */
  function RowReader(kind: RowKind): Json -> Result<Row> {
    record => RowOf(kind, record)
  }

  /** The outcome of reading each record in turn with `read`. */
  function Steps(read: Json -> Result<Row>, records: seq<Json>): (s: seq<Result<Row>>)
    ensures |s| == |records|
  {
    seq(|records|, i requires 0 <= i < |records| => read(records[i]))
  }

  /**
   * The whole loop of an `append_*_to_csv` call over its records: the rows of
   * the records in order, up to the first record that cannot be read.
   */
  function Extract(kind: RowKind, records: seq<Json>): (e: Extraction)
    ensures |e.rows| <= |records|
    decreases |records|, 1
  {
    if records == [] then Extraction([], None) else ExtractFirst(kind, records)
  }

  /** `Extract` once there is a first record: its error, or its row followed by the rest. */
  function ExtractFirst(kind: RowKind, records: seq<Json>): (e: Extraction)
    requires records != []
    ensures |e.rows| <= |records|
    decreases |records|, 0
  {
    match RowOf(kind, records[0])
    case Err(error) => Extraction([], Some(error))
    case Ok(row) =>
      var rest := Extract(kind, records[1..]);
      Extraction([row] + rest.rows, rest.failure)
  }

  /** The loop of an appender is the shared loop run with the reader of its kind. */
  lemma {:induction false} ExtractGathers(kind: RowKind, records: seq<Json>)
    ensures Extract(kind, records) == Gather(Steps(RowReader(kind), records))
    decreases |records|
  {
    if records != [] {
      var steps := Steps(RowReader(kind), records);
      assert steps[0] == RowOf(kind, records[0]);
      assert steps[1..] == Steps(RowReader(kind), records[1..]);
      ExtractGathers(kind, records[1..]);
      assert Extract(kind, records) == ExtractFirst(kind, records);
      assert Gather(steps) == GatherFirst(steps);
    }
  }

  /**
   * The loop writes the rows of a prefix of the outcomes; it finishes exactly
   * when every row was written, and otherwise stops with the error of the
   * first outcome after that prefix.
   */
  lemma {:induction false} GatherPrefix(steps: seq<Result<Row>>)
    ensures var e := Gather(steps);
      && (forall i | 0 <= i < |e.rows| :: steps[i] == Ok(e.rows[i]))
      && (e.failure.None? <==> |e.rows| == |steps|)
      && (e.failure.Some? ==> steps[|e.rows|] == Err(e.failure.value))
    decreases |steps|
  {
    if steps != [] {
      match steps[0]
      case Err(_) =>
      case Ok(row) =>
        var rest := Gather(steps[1..]);
        GatherPrefix(steps[1..]);
        var rows := [row] + rest.rows;
        forall i | 0 <= i < |rows|
          ensures steps[i] == Ok(rows[i])
        {
          if i > 0 {
            assert steps[i] == steps[1..][i - 1];
          }
        }
    }
  }

  /** Running over `a + b` is running over `a` and, when `a` did not stop, then over `b`. */
  lemma {:induction false} GatherAppend(a: seq<Result<Row>>, b: seq<Result<Row>>)
    ensures Gather(a + b) ==
      (if Gather(a).failure.Some? then Gather(a)
       else Extraction(Gather(a).rows + Gather(b).rows, Gather(b).failure))
    decreases |a|
  {
    if a == [] {
      assert a + b == b;
    } else {
      DropAppend(a, b);
      match a[0]
      case Err(_) =>
      case Ok(row) =>
        var x, y := Gather(a[1..]), Gather(b);
        GatherAppend(a[1..], b);
        if x.failure.None? {
          AppendAssociative([row], x.rows, y.rows);
        }
    }
  }

  /** The loop after one more outcome: one more row, or that outcome's error. */
  lemma GatherSnoc(a: seq<Result<Row>>, x: Result<Row>)
    requires Gather(a).failure.None?
    ensures x.Ok? ==> Gather(a + [x]) == Extraction(Gather(a).rows + [x.value], None)
    ensures x.Err? ==> Gather(a + [x]) == Extraction(Gather(a).rows, Some(x.error))
  {
    GatherAppend(a, [x]);
    assert [x][1..] == [];
    assert Gather([x]) == GatherFirst([x]);
  }

  /** A record that cannot be read, after a fully written prefix, ends the whole loop. */
  lemma GatherStopsAt(steps: seq<Result<Row>>, i: nat)
    requires i < |steps| && Gather(steps[..i]).failure.None? && steps[i].Err?
    ensures Gather(steps) == Extraction(Gather(steps[..i]).rows, Some(steps[i].error))
  {
    GatherAppend(steps[..i], steps[i..]);
    assert steps[i..][0] == steps[i];
    TakeDrop(steps, i);
  }

  /** Reading the records of `a + b` is reading those of `a`, then those of `b`. */
  lemma StepsAppend(read: Json -> Result<Row>, a: seq<Json>, b: seq<Json>)
    ensures Steps(read, a + b) == Steps(read, a) + Steps(read, b)
  {
    var s, t := Steps(read, a + b), Steps(read, a) + Steps(read, b);
    forall i | 0 <= i < |s|
      ensures s[i] == t[i]
    {
      if i < |a| {
        assert (a + b)[i] == a[i];
      } else {
        assert (a + b)[i] == b[i - |a|];
      }
    }
  }

  /**
   * The rows written are those of a prefix of the records; the loop finishes
   * exactly when every record was written, and otherwise stops with the error
   * of the first record after that prefix.
   */
  lemma ExtractPrefix(kind: RowKind, records: seq<Json>)
    ensures var e := Extract(kind, records);
      && (forall i | 0 <= i < |e.rows| :: RowOf(kind, records[i]) == Ok(e.rows[i]))
      && (e.failure.None? <==> |e.rows| == |records|)
      && (e.failure.Some? ==> RowOf(kind, records[|e.rows|]) == Err(e.failure.value))
  {
    ExtractGathers(kind, records);
    GatherPrefix(Steps(RowReader(kind), records));
  }

  /** A loop over all-readable records writes one row per record. */
  lemma ExtractAllReadable(kind: RowKind, records: seq<Json>)
    requires forall i | 0 <= i < |records| :: RowOf(kind, records[i]).Ok?
    ensures Extract(kind, records).failure.None?
    ensures |Extract(kind, records).rows| == |records|
  {
    ExtractPrefix(kind, records);
  }

  /** Running over the records of `a + b` is running over `a` and, when `a` did not stop, then over `b`. */
  lemma ExtractAppend(kind: RowKind, a: seq<Json>, b: seq<Json>)
    ensures Extract(kind, a + b) ==
      (if Extract(kind, a).failure.Some? then Extract(kind, a)
       else Extraction(Extract(kind, a).rows + Extract(kind, b).rows, Extract(kind, b).failure))
  {
    ExtractGathers(kind, a + b);
    ExtractGathers(kind, a);
    ExtractGathers(kind, b);
    StepsAppend(RowReader(kind), a, b);
    GatherAppend(Steps(RowReader(kind), a), Steps(RowReader(kind), b));
  }
}
