/**
 * Batch planning of `main` in src/make_dataset.py: for each target account,
 * the conversation ids still to collect, filtered against what earlier runs
 * already hold, grouped into query-sized batches (the `pool` of the loop).
 */
module Planning {
  import opened Values
  import opened Partition

  /** An account or conversation id, as the decimal text the queries are built from. */
  type Id = string

  /** `COLLECT_DATA_TYPE`, one of the three choices of the command line. */
  datatype DataType = News | Replies | Quotes

  /** A row of `news_tweets.csv`, reduced to the columns planning reads. */
  datatype NewsTweet = NewsTweet(authorId: Id, conversationId: Id, replyCount: int, quoteCount: int)

  /** A row of `news_accounts.csv`. */
  datatype NewsAccount = NewsAccount(username: string, authorId: Id)

  /** A row of `tweets_replies.csv`, reduced to `conversation_id` and `is_quote`. */
  datatype Conversation = Conversation(conversationId: Id, isQuote: bool)

  /** One element of `pool`: a batch of conversation ids, or (news mode) the account handle. */
  datatype Instance = Thread(ids: seq<Id>) | Account(handle: string)

  /** `NEWS_PER_QUERY`: how many conversations one query may name. */
  function NewsPerQuery(kind: DataType): (n: nat)
    ensures n > 0
    ensures n == (if kind == Replies then 25 else 34)
  {
    if kind == Replies then 25 else 34
  }

  /** `news_accounts[news_accounts.username == account].author_id.values[0]`, or None where that raises. */
  function AccountIdOf(accounts: seq<NewsAccount>, username: string): (r: Option<Id>)
    decreases |accounts|
  {
    if accounts == [] then None
    else if accounts[0].username == username then Some(accounts[0].authorId)
    else AccountIdOf(accounts[1..], username)
  }

  /** The lookup finds an id exactly when the handle is listed, and then it is the first listed row's id. */
  lemma {:induction false} AccountIdOfFirst(accounts: seq<NewsAccount>, username: string)
    ensures AccountIdOf(accounts, username).Some? <==>
              exists i :: 0 <= i < |accounts| && accounts[i].username == username
    ensures AccountIdOf(accounts, username).Some? ==>
              exists i :: 0 <= i < |accounts| && accounts[i].username == username &&
                accounts[i].authorId == AccountIdOf(accounts, username).value &&
                forall j :: 0 <= j < i ==> accounts[j].username != username
    decreases |accounts|
  {
    if accounts != [] && accounts[0].username != username {
      AccountIdOfFirst(accounts[1..], username);
      var r := AccountIdOf(accounts, username);
      if r.Some? {
        var i :| 0 <= i < |accounts[1..]| && accounts[1..][i].username == username &&
                 accounts[1..][i].authorId == r.value &&
                 forall j :: 0 <= j < i ==> accounts[1..][j].username != username;
        assert accounts[i + 1].username == username;
        forall j | 0 <= j < i + 1 ensures accounts[j].username != username {
          if j > 0 { assert accounts[j] == accounts[1..][j - 1]; }
        }
      } else {
        forall i | 0 <= i < |accounts| ensures accounts[i].username != username {
          if i > 0 { assert accounts[i] == accounts[1..][i - 1]; }
        }
      }
    } else if accounts != [] {
      assert accounts[0].username == username;
    }
  }

  /** `replies_conversations`: conversations already collected as replies. */
  function ReplyExclusions(conversations: seq<Conversation>): set<Id>
  {
    set c | c in conversations && !c.isQuote :: c.conversationId
  }

  /** `quotes_conversations`: conversations already collected as quotes. */
  function QuoteExclusions(conversations: seq<Conversation>): set<Id>
  {
    set c | c in conversations && c.isQuote :: c.conversationId
  }

  /**
   * The three conditions of the pandas filter: the tweet is the account's, its
   * conversation is not excluded, and it has replies (quotes mode: quotes).
   */
  predicate Wanted(t: NewsTweet, accountId: Id, excluded: set<Id>, kind: DataType)
  {
    && t.authorId == accountId
    && t.conversationId !in excluded
    && (if kind == Replies then t.replyCount > 0 else t.quoteCount > 0)
  }

  /** The filtered `conversation_id` column, in table order. */
  function Selected(tweets: seq<NewsTweet>, accountId: Id, excluded: set<Id>, kind: DataType): (ids: seq<Id>)
    ensures |ids| <= |tweets|
    decreases |tweets|
  {
    if tweets == [] then []
    else Kept(tweets[0], accountId, excluded, kind) + Selected(tweets[1..], accountId, excluded, kind)
  }

  /** What one row contributes to the selection. */
  function Kept(t: NewsTweet, accountId: Id, excluded: set<Id>, kind: DataType): seq<Id>
  {
    if Wanted(t, accountId, excluded, kind) then [t.conversationId] else []
  }

  /** Filtering keeps table order: the selection of two tables one after the other is the two selections in turn. */
  lemma {:induction false} SelectedAppend(a: seq<NewsTweet>, b: seq<NewsTweet>, accountId: Id, excluded: set<Id>, kind: DataType)
    ensures Selected(a + b, accountId, excluded, kind) ==
            Selected(a, accountId, excluded, kind) + Selected(b, accountId, excluded, kind)
    decreases |a|
  {
    if a == [] {
      assert a + b == b;
    } else {
      assert (a + b)[0] == a[0];
      assert (a + b)[1..] == a[1..] + b;
      SelectedAppend(a[1..], b, accountId, excluded, kind);
      var head := Kept(a[0], accountId, excluded, kind);
      calc {
        Selected(a + b, accountId, excluded, kind);
        head + Selected(a[1..] + b, accountId, excluded, kind);
        head + (Selected(a[1..], accountId, excluded, kind) + Selected(b, accountId, excluded, kind));
        (head + Selected(a[1..], accountId, excluded, kind)) + Selected(b, accountId, excluded, kind);
      }
    }
  }

  /** An id is selected exactly when some row that meets all three conditions carries it. */
  lemma {:induction false} SelectedMembers(tweets: seq<NewsTweet>, accountId: Id, excluded: set<Id>, kind: DataType, id: Id)
    ensures id in Selected(tweets, accountId, excluded, kind) <==>
            exists t :: t in tweets && Wanted(t, accountId, excluded, kind) && t.conversationId == id
    decreases |tweets|
  {
    if tweets != [] {
      SelectedMembers(tweets[1..], accountId, excluded, kind, id);
      assert forall t :: t in tweets <==> t == tweets[0] || t in tweets[1..];
    }
  }

  /** No selected conversation is one already collected. */
  lemma SelectedAvoidsExcluded(tweets: seq<NewsTweet>, accountId: Id, excluded: set<Id>, kind: DataType, i: nat)
    requires i < |Selected(tweets, accountId, excluded, kind)|
    ensures Selected(tweets, accountId, excluded, kind)[i] !in excluded
  {
    var id := Selected(tweets, accountId, excluded, kind)[i];
    SelectedMembers(tweets, accountId, excluded, kind, id);
  }

  /**
   * The batches of one account: none for an empty list, the list itself when it
   * is shorter than `perQuery`, else `split(list, ceil(len / perQuery))`.
   */
  function PlanBatches<T>(ids: seq<T>, perQuery: nat): (batches: seq<seq<T>>)
    requires perQuery > 0
  {
    if |ids| == 0 then []
    else if |ids| < perQuery then [ids]
    else Split(ids, CeilDiv(|ids|, perQuery))
  }

  /** The batches, concatenated in order, are exactly the filtered list. */
  lemma PlanPartition<T>(ids: seq<T>, perQuery: nat)
    requires perQuery > 0
    ensures Flatten(PlanBatches(ids, perQuery)) == ids
  {
    if |ids| == 0 {
    } else if |ids| < perQuery {
      assert Flatten([ids]) == ids + Flatten([ids][1..]);
    } else {
      SplitConcat(ids, CeilDiv(|ids|, perQuery));
    }
  }

  /** There are no batches exactly when nothing is left to collect. */
  lemma PlanEmpty<T>(ids: seq<T>, perQuery: nat)
    requires perQuery > 0
    ensures PlanBatches(ids, perQuery) == [] <==> ids == []
  {
    if |ids| >= perQuery {
      CeilDivAtMost(|ids|, perQuery);
      assert CeilDiv(|ids|, perQuery) > 0;
    }
  }

  /** Every batch is non-empty and names at most `perQuery` ids. */
  lemma PlanBatchSizes<T>(ids: seq<T>, perQuery: nat, i: nat)
    requires perQuery > 0 && i < |PlanBatches(ids, perQuery)|
    ensures 0 < |PlanBatches(ids, perQuery)[i]| <= perQuery
  {
    if |ids| >= perQuery {
      SplitWithinCapacity(ids, perQuery, i);
    }
  }

  /** Batch sizes never grow along the plan and differ by at most one. */
  lemma PlanBalanced<T>(ids: seq<T>, perQuery: nat, i: nat, j: nat)
    requires perQuery > 0 && i <= j < |PlanBatches(ids, perQuery)|
    ensures |PlanBatches(ids, perQuery)[j]| <= |PlanBatches(ids, perQuery)[i]| <= |PlanBatches(ids, perQuery)[j]| + 1
  {
    if |ids| >= perQuery {
      SplitBalanced(ids, CeilDiv(|ids|, perQuery), i, j);
    }
  }

  /** A list of `perQuery * c` ids gives `c` batches of exactly `perQuery` ids. */
  lemma PlanExactMultiple<T>(ids: seq<T>, perQuery: nat, c: nat)
    requires perQuery > 0 && c > 0 && |ids| == perQuery * c
    ensures |PlanBatches(ids, perQuery)| == c
    ensures forall i | 0 <= i < c :: |PlanBatches(ids, perQuery)[i]| == perQuery
  {
    assert |ids| >= perQuery by {
      assert perQuery * c == perQuery + perQuery * (c - 1);
    }
    forall i | 0 <= i < c
      ensures CeilDiv(|ids|, perQuery) == c && |Split(ids, c)[i]| == perQuery
    {
      SplitExactMultiple(ids, perQuery, c, i);
    }
    DivExact(c, perQuery);
  }

  /** Five ids, two per query: three batches, the longer ones first. */
  lemma PlanFiveByTwo()
    ensures PlanBatches(["A", "B", "C", "D", "E"], 2) == [["A", "B"], ["C", "D"], ["E"]]
  {
    var ids := ["A", "B", "C", "D", "E"];
    assert CeilDiv(5, 2) == 3;
    var plan := PlanBatches(ids, 2);
    assert plan == Split(ids, 3);
    FiveByThreeSlice0();
    FiveByThreeSlice1();
    FiveByThreeSlice2();
  }

  // Proof steps of PlanFiveByTwo, one slice each: stated together in one
  // proof the three slices exceed the solver's budget.

  lemma FiveByThreeSlice0()
    ensures Split(["A", "B", "C", "D", "E"], 3)[0] == ["A", "B"]
  {
    var ids := ["A", "B", "C", "D", "E"];
    assert 5 / 3 == 1 && 5 % 3 == 2;
    assert Split(ids, 3)[0] == Slice(ids, 3, 0);
    assert ids[0..2] == ["A", "B"];
  }

  lemma FiveByThreeSlice1()
    ensures Split(["A", "B", "C", "D", "E"], 3)[1] == ["C", "D"]
  {
    var ids := ["A", "B", "C", "D", "E"];
    assert 5 / 3 == 1 && 5 % 3 == 2;
    assert Split(ids, 3)[1] == Slice(ids, 3, 1);
    assert ids[2..4] == ["C", "D"];
  }

  lemma FiveByThreeSlice2()
    ensures Split(["A", "B", "C", "D", "E"], 3)[2] == ["E"]
  {
    var ids := ["A", "B", "C", "D", "E"];
    assert 5 / 3 == 1 && 5 % 3 == 2;
    assert Split(ids, 3)[2] == Slice(ids, 3, 2);
    assert ids[4..5] == ["E"];
  }

  /** A batch plan turned into pool instances, or None (the account is skipped) when it is empty. */
  function Threads(ids: seq<Id>, perQuery: nat): (pool: Option<seq<Instance>>)
    requires perQuery > 0
  {
    if |ids| == 0 then None
    else
      var batches := PlanBatches(ids, perQuery);
      Some(seq(|batches|, i requires 0 <= i < |batches| => Thread(batches[i])))
  }

  /** `news_account_id in news_tweets.author_id.unique()`. */
  predicate AlreadyCollected(tweets: seq<NewsTweet>, accountId: Id)
  {
    exists t :: t in tweets && t.authorId == accountId
  }

  /** The `pool` of one account, or None for the `continue` that skips it. */
  function Pool(kind: DataType, tweets: seq<NewsTweet>, accountId: Id, account: string,
                repliesConversations: set<Id>, quotesConversations: set<Id>): (pool: Option<seq<Instance>>)
    ensures pool.Some? ==> forall i | 0 <= i < |pool.value| :: (kind == News <==> pool.value[i].Account?)
  {
    match kind
    case Replies => Threads(Selected(tweets, accountId, repliesConversations, Replies), NewsPerQuery(Replies))
    case Quotes => Threads(Selected(tweets, accountId, quotesConversations, Quotes), NewsPerQuery(Quotes))
    case News => if AlreadyCollected(tweets, accountId) then None else Some([Account(account)])
  }

  /** The excluded set the pool of `kind` filters against. */
  function ExclusionsFor(kind: DataType, repliesConversations: set<Id>, quotesConversations: set<Id>): set<Id>
  {
    if kind == Replies then repliesConversations else quotesConversations
  }

  /** News mode: the account is skipped exactly when its tweets were collected before; otherwise its pool is the handle alone. */
  lemma PoolNews(tweets: seq<NewsTweet>, accountId: Id, account: string, rc: set<Id>, qc: set<Id>)
    ensures Pool(News, tweets, accountId, account, rc, qc).None? <==> AlreadyCollected(tweets, accountId)
    ensures !AlreadyCollected(tweets, accountId) ==> Pool(News, tweets, accountId, account, rc, qc) == Some([Account(account)])
  {
  }

  /**
   * Replies and quotes modes: the account is skipped exactly when nothing is
   * selected; otherwise the batches partition the selection in order, each
   * batch holding between one and `NEWS_PER_QUERY` ids.
   */
  lemma PoolThreads(kind: DataType, tweets: seq<NewsTweet>, accountId: Id, account: string, rc: set<Id>, qc: set<Id>)
    requires kind != News
    ensures var ids := Selected(tweets, accountId, ExclusionsFor(kind, rc, qc), kind);
            var pool := Pool(kind, tweets, accountId, account, rc, qc);
            && (pool.None? <==> ids == [])
            && (pool.Some? ==>
                  && |pool.value| == |PlanBatches(ids, NewsPerQuery(kind))|
                  && (forall i | 0 <= i < |pool.value| ::
                        pool.value[i] == Thread(PlanBatches(ids, NewsPerQuery(kind))[i])
                        && 0 < |pool.value[i].ids| <= NewsPerQuery(kind))
                  && Flatten(PlanBatches(ids, NewsPerQuery(kind))) == ids)
  {
    var ids := Selected(tweets, accountId, ExclusionsFor(kind, rc, qc), kind);
    var n := NewsPerQuery(kind);
    PlanPartition(ids, n);
    forall i | 0 <= i < |PlanBatches(ids, n)|
      ensures 0 < |PlanBatches(ids, n)[i]| <= n
    {
      PlanBatchSizes(ids, n, i);
    }
  }
}
