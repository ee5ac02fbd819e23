# covid-news-response: the collection engine, modelled in Dafny

The repository collects tweets for a study of COVID-19 news. `main` in
`src/make_dataset.py` goes through a list of news accounts. For each account it
plans the work and then runs a fetch loop. In news mode the plan is the
account's own timeline. In replies or quotes mode it is the account's
conversations that have not been collected yet, cut into query-sized batches
by `split`. The fetch loop retries every request with exponential back-off
until the API answers. It writes every page's records as CSV rows through the
`append_*_to_csv` functions of `src/collect/collect.py` and follows the
`next_token` cursor. It allows at most 300 answered requests between window
resets, and a reset only once 900 seconds have passed since the window began.
It stops asking once `MAX_COUNT` tweets were counted.

The model has seven modules, one file each:

- `values.dfy` (`Values`): optional values, results carrying a schema error,
  and the decoded JSON a response is made of. Python's `d[key]`, `l[i]` and
  `for x in d[key]` are modelled with their failure cases.
- `partition.dfy` (`Partition`): `split(a, n)` and the ceiling division the
  planner feeds it.
- `planning.dfy` (`Planning`): `NEWS_PER_QUERY`, the lookup of an account's id,
  the exclusion sets, the pandas filter on `news_tweets`, and the `pool` of one
  account.
- `queries.dfy` (`Queries`): the three search strings, the date bounds, and the
  parameter table of `create_url`. It also proves how many `" OR "`
  separators a search holds.
- `records.dfy` (`Records`): how one record becomes one row, and the loop
  over a page's records that stops at the first record it cannot read.
- `appenders.dfy` (`Appenders`): a CSV file opened for appending (a class
  whose rows only grow) and the four `append_*_to_csv` functions as loops
  over the records.
- `collection.dfy` (`Collection`): the retry loop, the page handling, the
  rate window, the `while flag` pagination loop, the pool loop and the
  account loop.

Python's `main` keeps its loop variables in locals. The model threads them
through the loop methods as values: `Pace` holds the clock and the window,
`Loop` holds the counters. Only the four output files are heap objects.

Each loop of `main` is a method proved equal to a function that specifies it:
`Retry` to `RetryFrom` (`while not valid`), `CollectPages` to `Paginate`
(`while flag`), `CollectInstance` to `InstanceRun`, `CollectPool` to `PoolRun`
(`for instance in pool`), `CollectAccount` to `AccountRun` and `Run` to
`RunFrom` (`for account in accounts_list`). Each function returns the final
state and a trace: the requests sent, the answers each used, the pages that
arrived and the rows written. The methods promise that the files gain exactly
the trace's rows; the lemmas state what the traces hold.

The network is a finite script of answers, one per attempt, in the order they
would arrive. Each answer is either a refused call or a decoded body, with the
time the attempt took. The clock is an integer. It advances only by those
times and by the sleeps the loop asks for. When the script runs out while a
request is still being retried, the run stops with `Unanswered`. This stands
in for a real retry loop that would wait for the network for ever.

## Model

| member | source | states |
|---|---|---|
| Values.Field | src/collect/collect.py:69 | `record[key]` succeeds exactly when the record is a dictionary holding `key`, and then yields that entry |
| Values.Item | src/collect/collect.py:137 | `list[i]` succeeds exactly when the value is a list longer than `i`, and yields its `i`-th element |
| Values.Items | src/collect/collect.py:63 | `for x in d[key]` runs over a list's elements, and over nothing for an empty dictionary or string; anything else is a schema error |
| Values.AtTwo | src/collect/collect.py:88 | a two-step lookup such as `tweet['public_metrics']['retweet_count']` succeeds exactly when both keys are present, and yields the inner entry |
| Partition.CeilDiv | src/make_dataset.py:128 | `ceil(x / d)`: the least `q` with `d * q >= x`, zero for zero |
| Partition.Split | src/collect/collect.py:15-17 | `split(a, n)` yields exactly `n` slices |
| Partition.SplitConcat | src/collect/collect.py:15-17 | the slices of `split(a, n)`, concatenated in order, are exactly `a` |
| Partition.SplitSizes | src/collect/collect.py:16-17 | slice `i` has `len(a) // n + 1` elements when `i < len(a) % n`, else `len(a) // n` |
| Partition.SplitBalanced | src/collect/collect.py:15-17 | slice sizes never grow along the list and differ by at most one |
| Partition.SplitWithinCapacity | src/make_dataset.py:128 | cut into `ceil(len / cap)` slices, a non-empty list gives no empty slice and none longer than `cap` |
| Partition.SplitExactMultiple | src/make_dataset.py:128 | a list of `cap * c` elements gives `c` slices of exactly `cap` |
| Planning.NewsPerQuery | src/make_dataset.py:82 | 25 conversations per query in replies mode, 34 otherwise |
| Planning.AccountIdOfFirst | src/make_dataset.py:111 | the id lookup succeeds exactly when the handle is listed, and yields the id of the first row listing it |
| Planning.Selected | src/make_dataset.py:117-121 | the filtered conversation ids are never more than the rows of the table |
| Planning.SelectedAppend | src/make_dataset.py:117-121 | the filter keeps table order: filtering two tables one after the other gives the two filtered lists in turn |
| Planning.SelectedMembers | src/make_dataset.py:117-134 | an id is selected exactly when some row of the account with replies (quotes mode: quotes) and a conversation not yet collected carries it |
| Planning.SelectedAvoidsExcluded | src/make_dataset.py:119 | no selected conversation is one already collected |
| Planning.PlanPartition | src/make_dataset.py:122-128 | the batches, concatenated in order, are exactly the filtered list |
| Planning.PlanEmpty | src/make_dataset.py:122-124 | there are no batches exactly when the filtered list is empty |
| Planning.PlanBatchSizes | src/make_dataset.py:125-128 | every batch holds between one and `NEWS_PER_QUERY` ids |
| Planning.PlanBalanced | src/make_dataset.py:128 | batch sizes never grow along the plan and differ by at most one |
| Planning.PlanExactMultiple | src/make_dataset.py:128 | a filtered list of `NEWS_PER_QUERY * c` ids gives `c` full batches |
| Planning.PlanFiveByTwo | src/make_dataset.py:128 | five ids at two per query split as `[A, B], [C, D], [E]` |
| Planning.Pool | src/make_dataset.py:116-147 | in news mode every pool instance is an account handle; in the other modes every instance is a batch of ids |
| Planning.PoolNews | src/make_dataset.py:142-147 | news mode skips an account exactly when its tweets were collected before; otherwise the pool is the handle alone |
| Planning.PoolThreads | src/make_dataset.py:116-141 | in replies and quotes mode, an account is skipped exactly when nothing is selected; otherwise the pool is the batch plan, each batch holding between one and `NEWS_PER_QUERY` ids, and together they are the selection in order |
| Queries.BoundsRoundTrip | src/make_dataset.py:76-77 | both bounds keep the given day as their prefix and append `T00:00:00.000Z` or `T23:59:59.000Z` |
| Queries.CreateUrl | src/collect/collect.py:29-42 | the full-archive endpoint, and a parameter table with exactly the nine keys: query, dates and page size as given, the fixed field lists, and an empty `next_token` |
| Queries.WithCursor | src/collect/collect.py:46 | setting the cursor changes only the `next_token` entry |
| Queries.RequestFor | src/make_dataset.py:175-176 | a request carries the search, the two bounds, a page size of 500 and the current cursor |
| Queries.ReplyQuerySeparators | src/make_dataset.py:152-154 | a replies search for `n` spaceless ids holds exactly `n - 1` `" OR "` separators |
| Queries.QuoteQuerySeparators | src/make_dataset.py:155-157 | a quotes search for `n` spaceless ids holds exactly `n - 1` `" OR "` separators |
| Queries.NewsQueryHasNoOr | src/make_dataset.py:158-159 | the news search for a spaceless handle holds no `" OR "` |
| Queries.JoinOccurrences | src/make_dataset.py:153 | `sep.join(ids)`, with a separator holding one `" OR "`, holds `len(ids) - 1` of them |
| Records.ReadGeo | src/collect/collect.py:75-78 | `geo` is the place id when the record has `geo`, and the blank `" "` otherwise |
| Records.ReadTime | src/collect/collect.py:72 | `created_at` can be read exactly when it is present and a string |
| Records.NewsRow | src/collect/collect.py:63-103 | a news record gives a row exactly when every key read is present; the row is the 12 columns in the order of line 100 |
| Records.ReadIsQuote | src/collect/collect.py:137 | `is_quote` can be read unless `referenced_tweets` is present with no readable first `type`; it holds exactly when that type is `quoted` |
| Records.ReadConversation | src/collect/collect.py:139 | a quote's conversation is the id of the tweet it quotes; any other tweet's is its own `conversation_id` |
| Records.TweetRow | src/collect/collect.py:119-161 | a reply or quote gives a row exactly when every key read is present; the row is the 14 columns of line 158, with `in_reply_to_user_id` falling back to the news account id |
| Records.UserRow | src/collect/collect.py:177-203 | a user gives a row exactly when every key read is present; the row is the 10 columns of lines 199-200 |
| Records.PlaceRow | src/collect/collect.py:219-231 | a place gives a row exactly when every key read is present; the row is the 5 columns of line 228 |
| Records.RowWidth | src/collect/collect.py:100-228 | every row written is 12, 14, 10 or 5 columns wide, by row kind |
| Records.GatherPrefix | src/collect/collect.py:63-104 | the loop writes the rows of a prefix of the records; it finishes exactly when every row was written, and otherwise stops with the error of the first record after that prefix |
| Records.GatherAppend | src/collect/collect.py:63-104 | running over `a + b` is running over `a` and then, if `a` did not stop, over `b` |
| Records.GatherSnoc | src/collect/collect.py:63-104 | one more record adds its row at the end, or stops with its error |
| Records.GatherStopsAt | src/collect/collect.py:63-104 | an unreadable record after a fully written prefix ends the loop with that record's error |
| Records.StepsAppend | src/collect/collect.py:63 | reading the records of `a + b` reads those of `a`, then those of `b` |
| Records.ExtractPrefix | src/collect/collect.py:63-104 | each row written is the row of the record at the same position; the loop finishes exactly when all records were written, and otherwise stops at the first unreadable record with its error |
| Records.ExtractAllReadable | src/collect/collect.py:63-104 | when every record is readable, the loop finishes and writes one row per record |
| Records.ExtractAppend | src/collect/collect.py:63-104 | a loop over `a + b` writes `a`'s rows, then (if `a` did not stop) `b`'s rows |
| Records.ExtractGathers | src/collect/collect.py:63-104 | each appender's loop over its records is the shared record loop run with the reader of its row kind |
| Appenders.CsvFile.WriteRow | src/collect/collect.py:103 | `writerow` adds one row at the end of the file and changes nothing else |
| Appenders.WriteRecords | src/collect/collect.py:63-104 | the file ends as its old rows followed by the loop's rows, and the error returned is the loop's |
| Appenders.IncludedRecords | src/collect/collect.py:177 | `json_response['includes'][key]` can be iterated exactly when both keys are present and the value is iterable |
| Appenders.Appended | src/collect/collect.py:63 | when the record list itself cannot be read, nothing is written and that error is returned |
| Appenders.AppendNews | src/collect/collect.py:53-107 | `news_tweets.csv` gains exactly the rows of the page's `data`, in order, up to the first unreadable record |
| Appenders.AppendTweet | src/collect/collect.py:110-165 | `tweets_replies.csv` gains exactly the rows of the page's `data`, in order, up to the first unreadable record |
| Appenders.AppendUser | src/collect/collect.py:168-207 | `users_replies.csv` gains exactly the rows of `includes.users`, in order, up to the first unreadable record |
| Appenders.AppendPlace | src/collect/collect.py:210-235 | `places_replies.csv` gains exactly the rows of `includes.places`, in order, up to the first unreadable record |
| Appenders.AppendedAllReadable | src/collect/collect.py:63-104 | a list of readable records is written one row per record, row `i` from record `i`, each of its kind's width |
| Collection.BackoffShape | src/make_dataset.py:184-185 | the `i`-th sleep after failures in a row is `2**(i+1)` |
| Collection.BackoffTotal | src/make_dataset.py:184-185 | `k` failures in a row sleep `2**(k+1) - 2` seconds in total |
| Collection.ResultCountOf | src/make_dataset.py:177 | the result count can be read exactly when `meta.result_count` is present |
| Collection.CursorOf | src/make_dataset.py:190 | the next cursor is None exactly when `meta` has no `next_token` or it is null |
| Collection.TallyOf | src/make_dataset.py:193 | `result_count is not None and result_count > 0` adds the count exactly for a positive number (or `True`, which adds 1), is skipped for None, zero or `False`, and raises for a string, list or dictionary |
| Collection.ZeroIsSkipped | src/make_dataset.py:193 | an empty result is neither written nor counted |
| Collection.PageEffect | src/make_dataset.py:193-200 | the corrected appends of one page: news mode writes only news rows, the other modes never write news rows, and place rows appear only when the page includes places |
| Collection.PageEffectComplete | src/make_dataset.py:194-198 | a readable replies or quotes page writes one tweet row per `data` entry, one user row per included user, place rows exactly when places are included, and no news rows |
| Collection.PageEffectNews | src/make_dataset.py:199-200 | a readable news page writes one news row per `data` entry and nothing else |
| Collection.PageEffectAsWritten | src/make_dataset.py:195 | as written, the appends of a replies or quotes page always raise; only news mode writes |
| Collection.ArityMismatchLosesPage | src/make_dataset.py:195 | a readable replies or quotes page with tweets is written in full by the three-argument call and not at all as written |
| Collection.RepeatShape | src/make_dataset.py:175-176 | a request retried `k` times is recorded `k` times |
| Collection.FirstAccepted | src/make_dataset.py:173-187 | the retry loop ends at the first answer whose result count can be read, or at the end of the script |
| Collection.FirstAcceptedIsFirst | src/make_dataset.py:173-187 | every answer before that one was refused or unreadable |
| Collection.SpacedPairwise | src/make_dataset.py:213-219 | any two window resets, not only neighbours, are at least 900 seconds apart |
| Collection.BudgetedEach | src/make_dataset.py:168-170 | every request issued left while `count < 10000000` |
| Collection.WindowTopUp | src/make_dataset.py:214-219 | sleeping out the rest of the window and resetting keeps the clock exact, and puts the new window at least 900 seconds after the old one |
| Collection.RetryFromShape | src/make_dataset.py:173-187 | the retry loop uses the answers up to the first readable one (or all of them), sleeps `2, 4, 8, ...` after each failure and one second after an empty result, resets the error count on success, and counts exactly one request only on success |
| Collection.RetryFromRecords | src/make_dataset.py:173-187 | one request is recorded per answer used; on success at least one answer was used and the result count is readable; the window is untouched |
| Collection.RetryFromSleeps | src/make_dataset.py:182-185 | the retry loop's sleeps are appended to the run's, and each is positive |
| Collection.RetryFromClock | src/make_dataset.py:173-187 | the clock moves by exactly the time of the attempts made and the sleeps taken |
| Collection.OutcomePaced | src/make_dataset.py:173-187 | after the retry loop the run's clock and window invariant still holds, with at most 300 requests in the window |
| Collection.RetryFacts | src/make_dataset.py:173-187 | the retry loop keeps the clock and window invariant; it ends either with a readable answer or with the script exhausted |
| Collection.Retry | src/make_dataset.py:173-187 | the `while not valid` loop computes exactly the retry loop's specification, from no failures and no sleeps |
| Collection.ControlCapsPaced | src/make_dataset.py:213-219 | at 300 requests the control sleeps exactly `900 - t` when `t < 900` and not at all otherwise, sets `n_requests` to 0 and opens the new window at the wake-up time, recorded as a reset at least 900 seconds after the previous window began; the clock invariant holds after it; below the cap nothing changes |
| Collection.SleepPaced | src/make_dataset.py:207 | the one-second pause after a counted page keeps the clock and window invariant |
| Collection.StorePage | src/make_dataset.py:193-200 | each of the four files gains exactly its part of the page's rows, and the appends' error is returned |
| Collection.AfterPage | src/make_dataset.py:189-219 | after a page the cursor is the page's `next_token` (None when absent); no answer is used and no request recorded; the pool, total and instance counts are untouched; the run stops, if at all, only for an uncountable result or an unreadable record |
| Collection.ProcessPage | src/make_dataset.py:189-219 | the new state is exactly the page's successor state and the files gain exactly the page's rows. An uncountable result stops the run and writes nothing. An empty result writes and counts nothing. A positive result appends the page, adds `result_count` to `count` and to the instance's total, and sleeps a second, unless a record could not be read. The invariant holds throughout |
| Collection.WritesAppend | src/make_dataset.py:192-200 | the pages of two stretches of the run write what the first stretch writes, then what the second writes |
| Collection.FetchOf | src/make_dataset.py:172-219 | one pass of `while flag` past its `MAX_COUNT` test: the request is recorded once per answer used; either a page with a readable result count arrives, or the script ran out and the run stops with `Unanswered` |
| Collection.FetchPage | src/make_dataset.py:172-219 | the pass leaves exactly the specified state and the files gain exactly that page's rows; `count` never falls; it never stops for an unknown account |
| Collection.PaginateStep | src/make_dataset.py:166-219 | the `while flag` loop is one pass, followed by the rest of the loop unless the page had no cursor or the run stopped |
| Collection.PaginateShape | src/make_dataset.py:166-187 | a request is sent exactly when `count` is below `MAX_COUNT` on entry; every request but possibly the last was answered with a page; the first request carries the cursor the loop began with |
| Collection.PaginateCursors | src/make_dataset.py:176-190 | every page has a readable result count, and each request after the first carries the `next_token` of the page before it, which was not None |
| Collection.PaginateSearch | src/make_dataset.py:166-195 | every request of the loop carries the instance's search and was sent while `count < MAX_COUNT`; every page is recorded for the account's id |
| Collection.PaginateIssued | src/make_dataset.py:173-187 | the requests recorded are each request repeated once per answer it used, and every request that got a page used at least one answer |
| Collection.PaginateEnds | src/make_dataset.py:166-219 | the loop ends at `MAX_COUNT`, or after a page without cursor, or with a stop; `Unanswered` leaves the script used up with one request unanswered; it never stops for an unknown account, and leaves the pool, total and instance counts alone |
| Collection.PaginateWrites | src/make_dataset.py:192-200 | the rows the loop writes are exactly its pages' rows, page after page |
| Collection.InstanceTrace | src/make_dataset.py:161-222 | every request of an instance carries its search, every page is of the account's id, and the rows written are those of its pages in order |
| Collection.InstanceRequests | src/make_dataset.py:175-176 | every request of an instance is `create_url(search, START_DATE, END_DATE, 500)` with the cursor it was sent with |
| Collection.ConfiguredRequest | src/make_dataset.py:76-77 | a configured run sends the command line's start day at `T00:00:00.000Z` and end day at `T23:59:59.000Z` |
| Collection.PoolRunStep | src/make_dataset.py:149-222 | the pool loop is its first instance, followed by the others unless the run stopped |
| Collection.PoolAdvance | src/make_dataset.py:149-222 | after instance `j` the pool loop's remaining work is that of the instances after `j` |
| Collection.PoolSearches | src/make_dataset.py:149-159 | each request of a pool carries the search of one of its instances |
| Collection.PoolPages | src/make_dataset.py:149-222 | every page of a pool is of the account's id, and the rows written are its pages' rows, in order |
| Collection.PoolCounts | src/make_dataset.py:149-222 | unless the run stopped, every instance of the pool is counted in `n_instances`; a pool never stops for an unknown account and leaves `total_tweets` alone |
| Collection.AccountStep | src/make_dataset.py:108-223 | the account loop is the first account's pass, followed by the other accounts, with the pool's tweets added to the total, unless the run stopped |
| Collection.AccountStops | src/make_dataset.py:110-111 | an account's pass stops for an unknown account exactly when the account has no id, and then names that account |
| Collection.AccountPages | src/make_dataset.py:108-223 | the pages of one account's pass are of that account's id, and its rows are its pages' rows |
| Collection.AccountAdvance | src/make_dataset.py:108-223 | after account `i` the run's remaining work is that of the accounts after `i` |
| Collection.RunStops | src/make_dataset.py:108-111 | the accounts are taken in list order: a stop for an unknown account is at the first account without an id, and a run that did not stop found an id for every account |
| Collection.RunPages | src/make_dataset.py:108-223 | every page of the run is of the id of one of the listed accounts |
| Collection.RunWrites | src/make_dataset.py:108-223 | the rows the run writes are exactly its pages' rows, page after page |
| Collection.CollectPages | src/make_dataset.py:161-220 | the `while flag` loop leaves exactly the page loop's specified state, the files gain exactly its rows, and the invariant holds; `count` and the instance's total rise together |
| Collection.CollectInstance | src/make_dataset.py:161-222 | an instance leaves exactly its specified state and the files gain exactly its rows; unless the run stopped, its tweets are added to the pool's total and it is counted; `count` never decreases |
| Collection.CollectPool | src/make_dataset.py:149-222 | the pool loop leaves exactly the pool's specified state (each instance in order, with its search) and the files gain exactly its rows; unless the run stopped, the pool's tweets are exactly what its instances added to `count` |
| Collection.CollectAccount | src/make_dataset.py:108-223 | one account leaves exactly its specified state and the files gain exactly its rows; an unknown account stops the run naming that account |
| Collection.InitialPaced | src/make_dataset.py:99-102 | the loop variables start at zero with the window opened at the start, which satisfies the clock and window invariant |
| Collection.Run | src/make_dataset.py:99-223 | the whole run leaves exactly the account loop's specified state (each account in order, stopping at the first without an id) and the files gain exactly its rows; it keeps the clock and window invariant and ends with `total_tweets == count` unless it stopped; an unknown account stop names a listed account that has no id |

## Findings

| source | as written | input that shows it | evidently intended | confidence | as-written member | corrected member |
|---|---|---|---|---|---|---|
| src/make_dataset.py:195 | `append_tweet_to_csv(json_response, news_account_id, COLLECT_DATA_TYPE, path)` passes four arguments to a function defined at src/collect/collect.py:110 with three parameters, so Python raises `TypeError` | any replies or quotes run that receives a page with `result_count > 0` | the three-argument call `append_tweet_to_csv(json_response, news_account_id, path)` | high; not executed | Collection.PageEffectAsWritten, Collection.ArityMismatchLosesPage | Collection.PageEffect, Collection.PageEffectComplete |

The rest of the model uses the three-argument form.

## Left out

- Authentication and headers (`auth`, `create_headers`), and the HTTP call of
  `connect_to_endpoint`. The call is replaced by the script of answers: a
  failed call or a non-200 status is a `Refused` answer.
- Real time. `time.time()` is the model's clock. It moves only by the
  attempts' durations and the sleeps, so the time spent writing files and
  logging is taken as zero.
- `Collection.Run`: the unbounded retry loop is bounded by the finite script of
  answers. When the script runs out the run stops with `Unanswered`, which the
  program has no counterpart for.
- pandas and `read_csv`. The tables are sequences of rows holding the columns
  planning reads. `unique()` is a set, and conversation ids are compared as
  text.
- `dateutil.parser.parse`. A time stamp is kept as its text (`Moment`); only
  whether it is a string is checked, not its format.
- `np.ceil` over a float division is modelled as exact integer ceiling
  division. That is the same for the list lengths a run can see.
- Logging, the command-line parser, and `src/consts/consts.py` (the default
  account list is an input of the run).
- The CSV encoding of a row (quoting, the text form of a time stamp);
  a row is its list of cells.
- `Values.Items`: iterating over a non-empty dictionary or string yields
  keys or characters, on which the first record lookup raises. The model
  reports that raise at once as a schema error of the iteration, and does
  not name the exact error Python would give.
- `Collection.TallyOf`: comparing a float `result_count` is not modelled; the
  API's counts are integers.
- `Collection.CollectInstance`: the run stops only for the causes listed in
  `Stop`. The page code's lookups of `meta` cannot fail in the model, because
  the retry loop only accepts a body whose result count can be read.
- The code sleeps `2**err_count` after incrementing `err_count`, that is
  2, 4, 8, ... seconds before the retries; the model does the same.
- The code raises no error for a search longer than the endpoint accepts;
  neither does the model, and the length of a search is not checked.
- A record with a missing key raises `KeyError`, which escapes `main` and
  ends the run; the model stops the run there with `BadRecord`.
- `Appenders.CsvFile`: opening and closing the file, and what is already in
  it before the run, are outside the model. A file starts as whatever rows
  it is constructed with.
