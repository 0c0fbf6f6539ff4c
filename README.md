# Marketplace sync jobs: fetch-and-reshape core

This project models, in Dafny, the core of four jobs that copy a marketplace
seller's data into spreadsheets. Each job talks to a marketplace HTTP API
once per account (and per day), retries or pages through the answers, and
flattens the JSON it gets into rows.

- **Advertising statistics** (`src/advert/utils_advert.py`):
  - Lists the active auto-bid and manual-bid campaigns of every account and merges their IDs without duplicates.
  - Fetches full statistics in batches of 100 IDs. Each batch has a retry loop that gives up after five counted failures.
  - Flattens every statistics record: per-platform metrics, `avg_position`, and the nested keys deleted.
- **Sales funnel** (`src/funnel/utils_funnel.py`):
  - Pages through an account's products 1000 at a time, by offset.
  - Retries up to 30 consecutive failures and returns None on 400/401/403.
  - Fetches every (day, account) pair in batches of 28 days and builds one 27-column row per product.
- **Advertising spend** (`src/advert_spend/utils_adv_spend.py`):
  - One request per (day, account), retried up to five times on HTTP errors.
  - Tags each row with the account and keeps `updTime` only when it is the queried day.
  - Concatenates everything, derives `sku` from `campName` and projects to ten columns.
- **Content cards** (`src/content/utils_content.py`):
  - Pages through an account's product cards by cursor, 100 at a time, while pages are full.
  - A failed request ends the download and keeps the pages already fetched.

Every HTTP exchange is replaced by a finite script of replies: each job reads
replies in the order it sends requests. A job's outcome is `Run<T>`:
- `Finished(value)`: it returned.
- `Raised(error)`: a Python exception escaped.
- `Starved`: the script ended while the job still wanted to send a request.

The `Starved` case lets the model state non-termination as "consumes every
reply and still asks for more". JSON values are the datatype `PyJson.Value`,
records are `map<string, Value>`, and Python exceptions are `PyJson.PyError`.

Modules, one per file:
- `PyJson`: values, and the parts of Python's semantics the jobs rely on (subscripting, `get`, truthiness, `*` and `+`).
- `Script`: a loop that runs one scripted step per item.
- `Batching`: `batchify` and `itertools.chain`.
- `AdvertStats`, `AdvertCampaigns`, `AdvertRows`: the advertising job.
- `Funnel`, `AdvSpend`, `Content`: the other three jobs.

The loops of the source are Dafny methods (`AdvertStats.AdvStatAsync`,
`Funnel.GetFunnelV3`, `AdvSpend.GetAdvSpend`, `Content.GetContentData`, and
others). Each one is proved equal to a recursive specification function, and
the lemmas state the properties of that function.

Behaviour of the code that the model keeps, stated as lemmas:
- A 400 in the statistics job is retried without being counted, so a server that answers only 400 keeps the job asking (`AdvertStats.StatsBadRequestsSpin`).
- The spend job retries on every HTTP error status, 429 or not (`AdvSpend.SpendRetries`).
- A connection error in the spend job is raised outside its `try` block and escapes the retry loop (`AdvSpend.ConnectionEscapes`).
- A spend answer of `[]` has no `updTime` column, so the job raises KeyError (`AdvSpend.EmptyAnswerRaises`).
- In `processed_adv_data`, a record of the wrong shape can raise TypeError, which ends the whole job (`AdvertRows.PrefixErr`).
- A failed follow-up request in the content job ends the download and returns the pages already fetched (`Content.FailureKeepsPages`).

## Model

| member | source | states |
|---|---|---|
| Batching.BatchifyFlatten | src/advert/utils_advert.py:132-144 | the batches, concatenated, are exactly the input |
| Batching.BatchifySizes | src/advert/utils_advert.py:132-144 | every batch is non-empty and holds at most `batch_size` items |
| Batching.BatchifyFullBatches | src/advert/utils_advert.py:132-144 | every batch but the last holds exactly `batch_size` items |
| Batching.BatchifyCount | src/funnel/utils_funnel.py:179-191 | no batches iff no data; n batches cover between (n-1)·size+1 and n·size items |
| Batching.BatchifySlices | src/content/utils_content.py:132-144 | batch k is the slice `data[k*size : k*size + size]`, cut at the end |
| Batching.FlattenAppend | src/advert/utils_advert.py:269 | chaining two lists of lists chains their chains |
| Batching.FlattenUniform | src/advert_spend/utils_adv_spend.py:219-226 | lists of one length m, chained, have `count * m` items |
| Batching.FlattenAt | src/advert_spend/utils_adv_spend.py:219-226 | item j of list i sits at position `i*m + j` of the chain |
| PyJson.FieldsOf | src/advert/utils_advert.py:193-195 | succeeds iff every element is a dict, giving their fields in order; TypeError otherwise |
| PyJson.TagAll | src/advert/utils_advert.py:193-195 | `item[k] = v` for every item: same length; each item now maps k to v, gains no other key and keeps the value of every other key |
| PyJson.MapAllLoop | src/advert/utils_advert.py:294-353 | the append loop that stops at the first exception computes MapAll |
| PyJson.MapAllEach | src/funnel/utils_funnel.py:228-274 | a successful loop gives one result per element in order; it fails iff some element fails |
| PyJson.MapAllAppend | src/funnel/utils_funnel.py:228-274 | mapping a concatenation maps its parts in turn |
| Script.RunAll | src/advert_spend/utils_adv_spend.py:219-226 | a finished run over the items returns one value per item |
| Script.RunAllNext | src/advert_spend/utils_adv_spend.py:222-226 | one iteration of the loop over items: append the step's value, or stop with its outcome |
| Script.RunAllPrefixStopped | src/funnel/utils_funnel.py:211-213 | once a prefix of the items stops, the whole loop stops with that outcome |
| Script.RunAllAppend | src/funnel/utils_funnel.py:211-213 | running over `a + b` runs over `a`, then over `b` on the replies `a` left |
| Script.RunAllValues | src/advert_spend/utils_adv_spend.py:219-226 | a property every step's value has holds of every value of the loop, at the item's position |
| Script.GroupingInvisible | src/funnel/utils_funnel.py:207-279 | fetching in batches of days gives the same rows, from the same replies, as fetching all days at once, or the same exception |
| AdvertStats.BatchLoop | src/advert/utils_advert.py:170-202 | the retry loop of one batch never reads more replies than it has |
| AdvertStats.StatsLoop | src/advert/utils_advert.py:164-207 | the batch loop sends no more requests than there are replies |
| AdvertStats.AdvStatAsync | src/advert/utils_advert.py:148-207 | the batch loop with its retry loops computes AdvStats: outcome and queries sent |
| AdvertStats.RetryBatch | src/advert/utils_advert.py:170-202 | `while retry_count < 5` computes BatchLoop and reports where the next unread reply is |
| AdvertStats.BatchLoopCounts | src/advert/utils_advert.py:171-202 | at most five counted failures and five requests besides free 400s; it gives up iff the fifth counted failure arrives; no reply left only after all were read |
| AdvertStats.BatchLoopRetries | src/advert/utils_advert.py:176-202 | every reply read was retried, except the last of a batch that succeeded or crashed, which is that success or crash |
| AdvertStats.BatchLoopItems | src/advert/utils_advert.py:190-197 | a fetched batch is the records of its one successful reply; a batch given up adds nothing |
| AdvertStats.StatsOutput | src/advert/utils_advert.py:160-207 | the output is the tagged records of the successful replies, in order, with a None body as no records |
| AdvertStats.StatsLoopFinished | src/advert/utils_advert.py:164-207 | a finished loop: its first batch was fetched or given up, and the output is that batch's records followed by the others' |
| AdvertStats.TagStatsTags | src/advert/utils_advert.py:193-195 | every tagged record has `account` and `date` set |
| AdvertStats.StatsTagged | src/advert/utils_advert.py:193-196 | every record adv_stat_async returns carries the account and `date_from` |
| AdvertStats.StatsRequestBound | src/advert/utils_advert.py:171-202 | requests sent, less the 400s answered, are at most 5 per batch |
| AdvertStats.StatsAllFailing | src/advert/utils_advert.py:183-202 | if every reply is 429, another error status or a network error, each batch gives up after exactly five requests and the job finishes with no records |
| AdvertStats.GiveUpAfterFive | src/advert/utils_advert.py:171-202 | counted failures only: the retry loop gives up after exactly 5 - k requests |
| AdvertStats.StatsBadRequestsSpin | src/advert/utils_advert.py:176-181 | if every reply is a 400, the first batch reads the whole script and still wants another request |
| AdvertStats.SpinOnBadRequests | src/advert/utils_advert.py:176-181 | a retry loop fed only 400s reads every reply without giving up |
| AdvertCampaigns.ListingLoop | src/advert/utils_advert.py:215-234 | a finished status loop read one reply per status |
| AdvertCampaigns.ListCampaigns | src/advert/utils_advert.py:210-259 | the loop over statuses 9 and 11 computes Listings |
| AdvertCampaigns.ListingTagged | src/advert/utils_advert.py:229-233 | every listed campaign carries the account |
| AdvertCampaigns.ListingFailuresIgnored | src/advert/utils_advert.py:221-229 | failed listing requests count as empty listings: failures alone give no campaigns and no exception |
| AdvertCampaigns.AutoListingsNonEmpty | src/advert/utils_advert.py:229-233 | only non-empty lists are appended (`if data:`) |
| AdvertCampaigns.AutoIds | src/advert/utils_advert.py:270 | succeeds iff every campaign has `advertId`, giving those IDs in order; KeyError otherwise |
| AdvertCampaigns.ManualIds | src/advert/utils_advert.py:275 | succeeds iff every campaign has `status`, and `id` when active; holds exactly the `id`s of status 9 or 11 |
| AdvertCampaigns.Dedupe | src/advert/utils_advert.py:279 | succeeds iff every ID is hashable; the result has no duplicates and the same elements as the input |
| AdvertCampaigns.MergedIds | src/advert/utils_advert.py:267-279 | the merged list has no duplicates and holds exactly the auto-bid `advertId`s and the active manual-bid `id`s |
| AdvertCampaigns.AccountIds | src/advert/utils_advert.py:267-279 | a finished ID merge read four listing replies |
| AdvertCampaigns.AccountIdsDistinct | src/advert/utils_advert.py:279 | the IDs queried for an account have no duplicates |
| AdvertCampaigns.DayTasks | src/advert/utils_advert.py:280-285 | an account's plan has as many tasks as there are days |
| AdvertCampaigns.PlannedTasks | src/advert/utils_advert.py:265-285 | one task per (account, day) pair: with D days, task a·D + d is for account a and day d, with the IDs AccountIds merges from account a's own four listing replies; no task queries an ID twice |
| AdvertCampaigns.PlannedTaskAt | src/advert/utils_advert.py:265-285 | the task of account a and day d comes after the D tasks of each earlier account, D the number of days, with a's merged IDs |
| AdvertCampaigns.PlannedTasksCover | src/advert/utils_advert.py:265-285 | a finished plan has (number of accounts)·(number of days) tasks, each for one of the accounts and days, and its IDs have every property each account's merged IDs have |
| AdvertCampaigns.TasksTagged | src/advert/utils_advert.py:287-289 | every record of the gathered tasks carries the account and date of the task it came from |
| AdvertCampaigns.AllAdvDataTagged | src/advert/utils_advert.py:261-290 | every record get_all_adv_data returns is tagged with one of the accounts and one of the dates |
| AdvertCampaigns.GetAllAdvData | src/advert/utils_advert.py:261-290 | the account and day loops, then gather, compute AllAdvData |
| AdvertCampaigns.QueueTasks | src/advert/utils_advert.py:265-285 | the loop over accounts computes PlanTasks |
| AdvertCampaigns.QueueDays | src/advert/utils_advert.py:280-285 | the loop over days appends one task per day |
| AdvertCampaigns.GatherStats | src/advert/utils_advert.py:287-289 | gather, then extend, computes RunTasks |
| AdvertCampaigns.PlanAccount | src/advert/utils_advert.py:267-279 | one account's listings and merge compute AccountIds and read four replies |
| AdvertRows.AvgPosition | src/advert/utils_advert.py:296-299 | `boosterStats[0].avg_position`; None when a key or the first element is missing; only TypeError escapes |
| AdvertRows.Platforms | src/advert/utils_advert.py:301-302 | no `days` key gives None (KeyError caught); an empty `days` raises IndexError; otherwise the first day's `apps` |
| AdvertRows.CopyColumns | src/advert/utils_advert.py:305-339 | copying metrics never raises; it stops (KeyError caught) exactly when some metric key of the type is missing from the entry |
| AdvertRows.CopyStopsAt | src/advert/utils_advert.py:305-339 | at the first missing metric key the copy stops, keeping exactly the writes of the columns before it |
| AdvertRows.ProcessedAdvData | src/advert/utils_advert.py:292-354 | the loop over records computes ProcessAll |
| AdvertRows.FlattenCamp | src/advert/utils_advert.py:294-353 | the body for one record, with the platform loop run step by step, computes ProcessCamp |
| AdvertRows.PrefixErr | src/advert/utils_advert.py:294-353 | an exception on one record is the exception of the whole job |
| AdvertRows.ProcessAllRecords | src/advert/utils_advert.py:292-354 | one output record per input, in order, each the input record processed |
| AdvertRows.LoopStopsAt | src/advert/utils_advert.py:303-341 | after the platform loop leaves, later entries are never read |
| AdvertRows.PlatformLoopFrame | src/advert/utils_advert.py:303-339 | the platform loop writes only platform keys |
| AdvertRows.ProcessedRecord | src/advert/utils_advert.py:292-353 | `avg_position` is the booster value or None; `boosterStats` and `days` are gone; every other unwritten key keeps its value |
| AdvertRows.ColumnSource | src/advert/utils_advert.py:305-339 | a suffixed key the loop changed was copied from an entry whose `appType` lists it (`_pc` and `cpc` from 1, `_android` from 32, `_ios` from 64) |
| AdvertRows.ArticleFromLast | src/advert/utils_advert.py:316-339 | `article_id` is the first `nmId` of the last handled platform entry |
| AdvertRows.SkipUnhandledSuffix | src/advert/utils_advert.py:303-339 | entries of other `appType`s change nothing |
| AdvertRows.CopyComplete | src/advert/utils_advert.py:305-338 | metrics all present: every column is copied from the entry |
| AdvertRows.CompleteEntry | src/advert/utils_advert.py:305-339 | a complete entry of a handled type fills each of its columns and `article_id` |
| AdvertRows.AndroidEntryOnly | src/advert/utils_advert.py:318-328 | an Android entry fills `clicks_android` and neither `clicks_pc` nor `clicks_ios` |
| Funnel.Fetch | src/funnel/utils_funnel.py:101-170 | the loop never raises; it sends at most one request per reply, and reads all replies when it runs out |
| Funnel.GetFunnelV3 | src/funnel/utils_funnel.py:84-170 | the `while True` loop over offset and attempt computes FunnelFetch: outcome and offsets sent |
| Funnel.StepDelivers | src/funnel/utils_funnel.py:111-163 | one iteration appends what the reply delivers; offset grows by it; attempt resets after a page and grows after a counted failure |
| Funnel.StepPageLimit | src/funnel/utils_funnel.py:113-131 | after a 200 the loop asks for another page iff this one held at least 1000 products; otherwise it leaves |
| Funnel.FetchStops | src/funnel/utils_funnel.py:113-131 | every 200 reply before the last request delivered at least 1000 products; a finished loop whose last reply was a 200 ended on a page of fewer |
| Funnel.FetchOffsets | src/funnel/utils_funnel.py:94-130 | every request's offset equals the number of products collected before it |
| Funnel.FetchResult | src/funnel/utils_funnel.py:113-170 | a finished loop returns None right after 400/401/403, however many pages came before; otherwise every delivered product in request order, or None when there are none |
| Funnel.FunnelTagged | src/funnel/utils_funnel.py:121-123 | every returned product carries the account |
| Funnel.FailuresLeave | src/funnel/utils_funnel.py:134-159 | counted failures in a row end the loop at the 30th, keeping the products collected |
| Funnel.TimeToReady | src/funnel/utils_funnel.py:265-269 | a `timeToReady` that is not a dict raises AttributeError |
| Funnel.TimeToReadyMinutes | src/funnel/utils_funnel.py:265-269 | with int components, `time_to_ready` is days·1440 + hours·60 + mins, a missing one counting 0 |
| Funnel.ProductColumnsValues | src/funnel/utils_funnel.py:238-248 | each info column holds `prod_info.get(key)` and each stock column `prod_info.get('stocks', {}).get(key)`; AttributeError exactly when `prod_info` or its `stocks` is not a dict |
| Funnel.SelectedColumnsValues | src/funnel/utils_funnel.py:253-271 | each metric column holds `selected.get(key)`, `time_to_ready` the TimeToReady minutes, `date` the period's `end` or None; built exactly when `selected` and its `period` are dicts and TimeToReady succeeds |
| Funnel.FunnelRow | src/funnel/utils_funnel.py:229-274 | a row's `account` is the product's account |
| Funnel.FunnelRowValues | src/funnel/utils_funnel.py:229-272 | every column's value: `account` from the product, info and stock columns from its `product` section, metrics, `time_to_ready` and `date` from `statistic.selected`; a row is built exactly when those sections are dicts and TimeToReady succeeds |
| Funnel.SectionsNotDicts | src/funnel/utils_funnel.py:231-233 | a `statistic` or `selected` that is not a dict raises AttributeError |
| Funnel.MissingSelectedGivesNone | src/funnel/utils_funnel.py:232-271 | with `statistic` present but no `selected`, every metric and `date` is None and `time_to_ready` 0, while the `product` columns are read as usual |
| Funnel.RowTimeToReady | src/funnel/utils_funnel.py:233-269 | with int or missing `days`, `hours`, `mins`, the row's `time_to_ready` is days·1440 + hours·60 + mins |
| Funnel.RowShape | src/funnel/utils_funnel.py:236-272 | every row has exactly the 27 columns |
| Funnel.MissingSectionsGiveNone | src/funnel/utils_funnel.py:230-272 | a product without `product` and `statistic` gives a row of None, except the account and `time_to_ready` 0 |
| Funnel.RowsPerProduct | src/funnel/utils_funnel.py:228-274 | one row per product, in order, each with its product's account |
| Funnel.CollectProducts | src/funnel/utils_funnel.py:218-222 | the nested loop that skips empty results computes Collect |
| Funnel.ProcessBatch | src/funnel/utils_funnel.py:212-278 | one batch computes the group step: gather the days, collect, build the rows |
| Funnel.NextBatch | src/funnel/utils_funnel.py:211-278 | one iteration of the batch loop appends the batch's frame, or ends the loop |
| Funnel.RunBatches | src/funnel/utils_funnel.py:210-278 | the batch loop computes the frames of all batches |
| Funnel.ProcessFunnelDaily | src/funnel/utils_funnel.py:193-285 | the batch loop, then `pd.concat`, computes ProcessFunnelDailySpec |
| Funnel.RowsSplit | src/funnel/utils_funnel.py:218-274 | building the rows of two lists of results is building each, concatenated |
| Funnel.ProcessFunnelDailyRows | src/funnel/utils_funnel.py:207-279 | no days raises ValueError; otherwise, when every fetch finishes, the result is the rows of every product of every (day, account) pair in order |
| AdvSpend.DateTextIdempotent | src/advert_spend/utils_adv_spend.py:230 | reading `updTime` as a date a second time changes nothing |
| AdvSpend.Frame | src/advert_spend/utils_adv_spend.py:203 | a successful frame has one row per element, each the element's fields |
| AdvSpend.SpendLoop | src/advert_spend/utils_adv_spend.py:199-215 | the retry loop never reads more replies than it has |
| AdvSpend.GetAdvSpend | src/advert_spend/utils_adv_spend.py:191-215 | the `while not task_completed and retry_count < max_retries` loop computes Spend |
| AdvSpend.SpendEnds | src/advert_spend/utils_adv_spend.py:199-215 | at most 5 - k requests; None exactly when the next 5 - k replies are HTTP errors; otherwise the first non-error reply's frame, or its exception, or ConnectionError for a request that raised |
| AdvSpend.SpendRetries | src/advert_spend/utils_adv_spend.py:199-215 | at most five requests; None exactly after five HTTP errors in a row |
| AdvSpend.ConnectionEscapes | src/advert_spend/utils_adv_spend.py:200-201 | a request that raises before any success is not retried: ConnectionError escapes |
| AdvSpend.SpendRowsTagged | src/advert_spend/utils_adv_spend.py:203-206 | one row per server row, with `account` set and `updTime` kept iff it is the queried day (else NaN); no other column changes |
| AdvSpend.EmptyAnswerRaises | src/advert_spend/utils_adv_spend.py:203-205 | an answer of `[]` has no `updTime` column: KeyError escapes |
| AdvSpend.NextAccount | src/advert_spend/utils_adv_spend.py:222-226 | one iteration over accounts appends get_adv_spend's result, or stops the job |
| AdvSpend.SpendDay | src/advert_spend/utils_adv_spend.py:222-226 | the loop over accounts computes DaySpend |
| AdvSpend.NextDay | src/advert_spend/utils_adv_spend.py:219-226 | one iteration over days appends that day's results, or stops the job |
| AdvSpend.ProcessedAdvSpend | src/advert_spend/utils_adv_spend.py:217-233 | the day and account loops, concat and shaping compute ProcessedAdvSpendSpec |
| AdvSpend.SpendFrame | src/advert_spend/utils_adv_spend.py:204-206 | every row of one fetch is tagged with its account, and with its day or NaN |
| AdvSpend.DayFrames | src/advert_spend/utils_adv_spend.py:222-226 | one day's list has one entry per account, each that account's frame |
| AdvSpend.SpendListOrder | src/advert_spend/utils_adv_spend.py:219-226 | one fetch per (day, account) pair, at position `day * |accounts| + account` of `adv_spend_list` |
| AdvSpend.FramesMembers | src/advert_spend/utils_adv_spend.py:228 | the rows of the concat are exactly the rows of the frames |
| AdvSpend.ConcatFrames | src/advert_spend/utils_adv_spend.py:228 | `pd.concat` raises iff every entry is None; otherwise its rows are the frames' rows |
| AdvSpend.SkuPrefix | src/advert_spend/utils_adv_spend.py:231 | `sku` is a prefix of `campName` of at most nine characters, the whole name when shorter |
| AdvSpend.ColumnsAfterSet | src/advert_spend/utils_adv_spend.py:230-231 | setting one column keeps the other columns and adds that one |
| AdvSpend.ShapeRows | src/advert_spend/utils_adv_spend.py:230-232 | shaping succeeds iff the nine source columns exist, every date parses and every name can be cut; each output row is shaped from its input row |
| AdvSpend.ShapedSkusOk | src/advert_spend/utils_adv_spend.py:231-232 | after the date step, `sku` and the projection succeed iff `campName` exists and every name can be cut |
| AdvSpend.SelectShaped | src/advert_spend/utils_adv_spend.py:230-232 | a row with its date reread and its `sku` added projects to the ten columns |
| AdvSpend.ProcessedSpendRows | src/advert_spend/utils_adv_spend.py:217-233 | every returned row has one of the accounts, and as `updTime` one of the days or "NaT" |
| Content.Page | src/content/utils_content.py:171-172 | succeeds iff `cards` is a list of objects; one row per card, in order, each the card's fields with `account` set |
| Content.More | src/content/utils_content.py:174-191 | the cursor loop sends no more requests than there are replies |
| Content.ContentData | src/content/utils_content.py:146-194 | the job sends no more requests than there are replies |
| Content.GetContentData | src/content/utils_content.py:146-194 | the first request, then the cursor loop, computes ContentData: rows and payloads sent |
| Content.Paginate | src/content/utils_content.py:174-191 | the `while` loop computes More |
| Content.NextPage | src/content/utils_content.py:175-191 | one iteration writes the cursor, sends it and either stops with the job's result or goes on with the page added |
| Content.MoreTrace | src/content/utils_content.py:174-191 | the loop sends a request only after a full page, carries the cursor forward, and returns the pages' rows |
| Content.ContentTrace | src/content/utils_content.py:146-194 | the first request carries the initial payload; each later one follows a full page and carries the previous cursor; a finished run returns every page's rows in request order |
| Content.ContentRequests | src/content/utils_content.py:152-179 | every request asks for 100 cards with filter `withPhoto = -1`; each later one carries `updatedAt` and `nmID` of the previous cursor |
| Content.ContentStops | src/content/utils_content.py:174 | every reply but the last is a page of exactly 100 cards; a finished run's last reply failed or had a page of another size |
| Content.FailedAddsNothing | src/content/utils_content.py:181-187 | a failed request adds no rows |
| Content.FailureKeepsPages | src/content/utils_content.py:163-187 | a failed first request returns no rows and sends nothing more; a failed later request returns every earlier page's rows |
| Content.ContentTagged | src/content/utils_content.py:171-191 | every returned row carries the account |
| Content.PagesTagged | src/content/utils_content.py:189-191 | every row of the pages carries the account |

## Left out

- `load_api_tokens`: a filesystem walk and a JSON read. Accounts are given as inputs, and tokens go only into headers, which are not modelled.
- `safe_open_spreadsheet`, `send_df_to_google` and every `main_*` function: spreadsheet I/O.
- `src/advert/main.py` and `src/content/content.py`: top-level scripts doing floating-point CPM, pandas projections and spreadsheet I/O. They are not part of this model.
- Concurrency: the `asyncio.Semaphore` gates are not modelled. `asyncio.gather` runs its tasks one after another, in order, and each task reads the replies the previous ones left.
- Sleeps and `retry_delay` are not modelled; they do not change what the jobs return.
- Dates come from `datetime.now()` in the source. The model takes the list of query dates as an input, already formatted as `YYYY-MM-DD`.
- Request URLs, headers and query parameters are not modelled, except the content job's payload, the statistics job's batch of IDs and dates, and the funnel's `offset` (returned by Funnel.Fetch, stated by Funnel.FetchOffsets).
- Floats and booleans are not JSON values of the model. Arithmetic on `time_to_ready` is over unbounded ints.
- pandas is modelled as lists of records:
  - dtypes and column order are not modelled, except the projection to the ten spend columns, which is a key set;
  - a column missing from one row but present in another reads as NaN (`Null`);
  - `pd.to_datetime(..., format='ISO8601')` is modelled by AdvSpend.IsoText: text of at least ten characters that starts `YYYY-MM-DD` (digits and dashes) and whose eleventh character, when present, is `T` or a space; the rest of the text and the calendar values are not checked. Any other text is ValueError in the model, including ISO 8601 forms pandas accepts, such as `2024`, `2024-01`, the basic form `20240115`, and week or ordinal dates.
- A body that is not JSON, so that `response.json()` raises, is not modelled.
- AdvSpend.GetAdvSpend: every exception raised by `requests.get` itself (a refused connection, a `ReadTimeout`, an invalid URL) is reported as ConnectionError. The model does not tell these exception classes apart; all of them escape unretried.
- AdvSpend.Frame: a body that is not a list of objects is ValueError. pandas would build other frames from a dict of lists or scalars.
- Content.Page: a `cards` value that is not a list of objects is ValueError. pandas and `len` would accept or reject other shapes differently.
- AdvSpend.Sku: a `Str` or `List` name is cut to its first nine items, and a `Null`, `Int` or `Map` name raises TypeError. Since Python 3.12 slices are hashable, so slicing a dict raises KeyError there; the model keeps TypeError.
- AdvertCampaigns.Dedupe: Python's `set` order is unspecified. The model keeps first occurrences in order, and its contract speaks only of the elements and the absence of duplicates.
- Updates in place are modelled as new values: `processed_adv_data` mutates its input records, and aliasing between the input list and the output is not captured.
- `print` and `logging` calls are not modelled.
