# monkey: reporting-date repair, connectors and parameter store, in Dafny

This project models the deterministic core of the `monkey` scripts.

- **`SSMParameterStore`** (`param_store.dfy`). `fetch` reads one parameter named `/<env><key>`. `fetch_many` asks the store for `required + optional` in batches of at most ten names. It strips the `/<env>` prefix from every returned name and fills a `params` dict. Only after the last batch does it raise once for all the missing required keys. The AWS client is a `Store` (a map from full name to value). It answers a request with the names it holds, in request order.
- **The reporting-date repair job** (`repair_jobs.dfy`). `fix_reporting_dates_null` and `fix_reporting_dates_0001` read posts and then join obligations and campaigns on the posts' ids. They build a last-write-wins `values` dict from `post_id` to dates shifted by `timedelta(weeks=6)` and written as `%Y-%m-%d %H:%M:%S`. Then they flatten that dict into update tuples. The module also covers `diff` and `main`'s catch-and-"finished" flow. Both databases are given as `Server` functions from a statement to a reply. A job's result is a `Run`, which records:
  - how the job ended;
  - the join statement it sent;
  - the ids it printed as unmatched;
  - the tuples it handed to `executemany`.
  `PostConnector` has no `executemany`, so every run that reaches the write ends in `AttributeError`. This is proved, not assumed.
- **The five database connectors.** The job's `CollabsConnector` and `PostConnector` are in `src_collabs.dfy` and `src_posts.dfy`. The scripts package's `CollabsConector`, `PostConnector` and `LinksConnector` are in `py_collabs.dfy`, `py_posts.dfy` and `links.dfy`.
  - Each class holds its `cnx` (or `session`) as an `Option`. `None` is an attribute that was never assigned.
  - Each constructor is a static `Open` method that connects and returns the connector or the error it raised.
  - The choice between an explicit `cfg` and the environment is a pure `ConnectPlan` function. Its `stores` flag is false on the paths that bind the connection to the local name `self` and so lose it.
  - The cursor rules live in `sql.dfy`:
    - `fetchall` raises 'not found' only for a missing result set;
    - `fetchone` also raises it for an empty one.
  - The SQL text, including the `str.format` splicing, is in `queries.dfy`.
- **`CustomJsonFormatter.add_fields`** (`log_format.dfy`). It moves `levelname` to `level` in the record dict, in place.

The shared modules are:

- `civil_time.dfy`: proleptic Gregorian dates with day ordinals. It covers adding whole days with the `OverflowError` past 9999-12-31, and `strftime` with a parser that reads its output back.
- `py_dict.dfy`: a Python `dict` as its items in insertion order.
- `lists.dfy`: order-preserving dedup and filtering.
- `py_text.dfy`: `join`, `split`, `str(int)`, `format`, `replace`.
- `wrappers.dfy`: `Option` and `Result`.

Where the code and its documentation disagree, the model follows the code. A few examples:

- `get_advertiser_ids` documents a lookup by brand id, but its statement never contains the id.
- The job's connectors document a connection pool on every path, but they keep no connection on the environment path.
- `main`'s write step calls a method the posts connector does not have.

## Model

| member | source | states |
|---|---|---|
| ParameterStore.SSMParameterStore.constructor | python-scripts/package/rscom/common/utils/ssm_parameter_store.py:13-15 | the store keeps its environment and its client |
| ParameterStore.GetParameters | python-scripts/package/rscom/common/utils/ssm_parameter_store.py:31-33 | the answer has no more entries than names asked for, and each entry is a name the store holds with its stored value |
| ParameterStore.GetParametersMembers | python-scripts/package/rscom/common/utils/ssm_parameter_store.py:31-33 | the store answers with exactly the asked-for names it holds, each with its stored value |
| ParameterStore.GetParametersConcat | python-scripts/package/rscom/common/utils/ssm_parameter_store.py:75-79 | asking for two name lists in turn gets the two answers in turn |
| ParameterStore.Prefixed | python-scripts/package/rscom/common/utils/ssm_parameter_store.py:29 | the name a key is sent under is one from which the `[len(env)+1:]` slice gives the key back (prefix/strip round trip) |
| ParameterStore.Strip | python-scripts/package/rscom/common/utils/ssm_parameter_store.py:82 | `name[len(env)+1:]` is what follows the first `len(env)+1` characters of the name, and empty for a name no longer than that |
| ParameterStore.PrefixedInjective | python-scripts/package/rscom/common/utils/ssm_parameter_store.py:29 | different keys are sent under different names |
| ParameterStore.FetchResult | python-scripts/package/rscom/common/utils/ssm_parameter_store.py:29-43 | `fetch` returns the stored value when the name exists; otherwise it returns None if not required, and raises naming key and env exactly when required |
| ParameterStore.SSMParameterStore.Fetch | python-scripts/package/rscom/common/utils/ssm_parameter_store.py:29-43 | sends exactly one name, `'/' + env + key`, and returns what `FetchResult` describes |
| ParameterStore.Batches | python-scripts/package/rscom/common/utils/ssm_parameter_store.py:75-77 | `range(0, len(keys), 10)` yields a batch exactly when there is at least one key |
| ParameterStore.BatchesFlatten | python-scripts/package/rscom/common/utils/ssm_parameter_store.py:75-77 | the batches, concatenated, are the keys: every key is asked for once, in order |
| ParameterStore.BatchesSizes | python-scripts/package/rscom/common/utils/ssm_parameter_store.py:75-77 | there are ceil(n/10) batches, each of one to ten keys |
| ParameterStore.BatchAt | python-scripts/package/rscom/common/utils/ssm_parameter_store.py:75-77 | batch `i` is `keys[10i : 10i+10]`, cut short only at the end |
| ParameterStore.TwentyThreeKeys | python-scripts/package/rscom/common/utils/ssm_parameter_store.py:75-79 | 23 keys go out as 10, 10 and 3 |
| ParameterStore.BatchesStep | python-scripts/package/rscom/common/utils/ssm_parameter_store.py:75-77 | the batches from position `i` are `keys[i:i+10]` followed by the batches from `i+10` |
| ParameterStore.RequestsStep | python-scripts/package/rscom/common/utils/ssm_parameter_store.py:75-79 | one loop iteration sends the prefixed names of the next batch and leaves the rest for later iterations |
| ParameterStore.CollectedStep | python-scripts/package/rscom/common/utils/ssm_parameter_store.py:75-83 | storing one batch's answer extends the result from `keys[:i]` to `keys[:j]` |
| ParameterStore.StoreResponse | python-scripts/package/rscom/common/utils/ssm_parameter_store.py:81-83 | the inner loop assigns each returned parameter, prefix cut, in the order returned |
| ParameterStore.FoundLastValue | python-scripts/package/rscom/common/utils/ssm_parameter_store.py:75-83 | the last value found for a key is the store's value exactly when the key was asked for and exists |
| ParameterStore.Collected | python-scripts/package/rscom/common/utils/ssm_parameter_store.py:62-83 | the `params` dict after every batch has been stored has each key once |
| ParameterStore.CollectedGet | python-scripts/package/rscom/common/utils/ssm_parameter_store.py:81-83 | a key is in the result exactly when it was asked for and the store has it, with the store's value; nothing else (no None) is inserted |
| ParameterStore.MissingIsAbsent | python-scripts/package/rscom/common/utils/ssm_parameter_store.py:85-89 | the missing required keys are exactly the required keys the store does not hold |
| ParameterStore.MissingRequired | python-scripts/package/rscom/common/utils/ssm_parameter_store.py:85-86 | `required - params.keys()` holds only required keys that got no value, and is empty (falsy) exactly when every required key got one |
| ParameterStore.FetchManyResult | python-scripts/package/rscom/common/utils/ssm_parameter_store.py:62-91 | `fetch_many` fails only with "No parameters specified" or the missing-required error |
| ParameterStore.FetchManyOutcome | python-scripts/package/rscom/common/utils/ssm_parameter_store.py:62-91 | a None or empty list counts as empty, and both empty raises `ValueError`. On success the result is what the store has for `required + optional` and holds every required key. Otherwise the one error names exactly the absent required keys, and there is at least one |
| ParameterStore.FetchAgreesWithFetchMany | python-scripts/package/rscom/common/utils/ssm_parameter_store.py:35-39 | an optional `fetch` of one key agrees with `fetch_many` of that key as optional |
| ParameterStore.SSMParameterStore.FetchMany | python-scripts/package/rscom/common/utils/ssm_parameter_store.py:62-91 | the loop sends one request per batch, in order, fills `params` batch by batch and checks the required keys once at the end; the result is `FetchManyResult` |
| LogFormat.RenameLevel | python-scripts/package/rscom/common/utils/custom_formatter.py:7-8 | the rename can fail only with `KeyError('levelname')` |
| LogFormat.RenameLevelFails | python-scripts/package/rscom/common/utils/custom_formatter.py:7 | the rename raises exactly when the record has no `levelname` |
| LogFormat.RenameLevelFields | python-scripts/package/rscom/common/utils/custom_formatter.py:6-8 | `level` holds what `levelname` held, `levelname` is gone, every other field is unchanged; an existing `level` is overwritten |
| LogFormat.RenameLevelKeys | python-scripts/package/rscom/common/utils/custom_formatter.py:7-8 | `level` keeps its place or goes last, `levelname` drops out, other fields keep their order |
| LogFormat.RenameLevelOnce | python-scripts/package/rscom/common/utils/custom_formatter.py:7-8 | a renamed record cannot be renamed again |
| LogFormat.RenameLevelDistinct | python-scripts/package/rscom/common/utils/custom_formatter.py:7-8 | a record whose field names are distinct keeps them distinct after the rename |
| LogFormat.AddFields | python-scripts/package/rscom/common/utils/custom_formatter.py:5-8 | after the base formatter's fill, the record is renamed in place; without `levelname` it raises and keeps the filled fields; the fields stay a dict with distinct names |
| Sql.Str | src/main.py:73 | `str` of an integer has no comma, newline or tab; `str` of a `str` is the string itself, whatever it holds |
| Sql.Message | src/main.py:47 | `str(err)` of a `KeyError` is its key in quotes, and of a re-raised driver error the driver's own message |
| Sql.TypeName | src/main.py:94-95 | `type(v).__name__` tells `None` and `int` apart, the two operands `+ timedelta` rejects with a `TypeError` naming them |
| Sql.StrReadsBack | src/main.py:73 | `str` of an integer or a timestamp reads back as the same value |
| Sql.EnvSettings | src/common/db/collabs_connector.py:24-31 | `DB_CONFIG` holds host, user, password, db from the environment and charset utf8mb4, and no port |
| Sql.EnvSettingsIgnorePort | src/common/db/collabs_connector.py:17-31 | the port variable changes neither the settings nor the environment check |
| Sql.EnvVarsProvided | src/common/db/collabs_connector.py:242-247 | true exactly when the host, user and password variables are set and non-empty (Python truthiness); the same test is `env_vars_provided()` at src/common/db/posts_connector.py:152-157 and in the two scripts connectors |
| Sql.EnvVarsIgnorePortAndDb | src/common/db/posts_connector.py:152-157 | the port and database-name variables are not checked: changing them does not change the test |
| Sql.SettingsFromConfig | src/common/db/collabs_connector.py:226-240 | `cnx_from_config` reads the four keys in order and raises `KeyError` on the first one missing; charset is utf8mb4 |
| Sql.Establish | src/common/db/collabs_connector.py:206-224 | connecting succeeds exactly when a plan exists and the driver accepts its settings; driver errors are re-raised |
| Sql.StoredAfter | src/common/db/collabs_connector.py:210-219 | `cnx` changes only on a successful connect along a storing path, and then holds that connection |
| Sql.FetchAll | src/common/db/collabs_connector.py:52-64 | `fetchall` raises 'not found' exactly when there is no result set; rows, empty or not, are returned as they are; a missing `cnx` is an `AttributeError` |
| Sql.FetchOne | src/common/db/collabs_connector.py:94-104 | `fetchone` returns the first row and raises 'not found' exactly for no result set or no rows |
| Sql.FetchAllEmptyIsResult | src/common/db/posts_connector.py:57-60 | an empty row list is returned by `execute`, never raised |
| SrcCollabs.ConnectPlan | src/common/db/collabs_connector.py:206-224 | `cfg` wins and is stored. Without it, the plan succeeds from the environment exactly when host, user and password are set, with `DB_CONFIG` as settings, but its connection is dropped. Otherwise "Missing required environment variables" |
| SrcCollabs.ConfigWins | src/common/db/collabs_connector.py:206-215 | with a `cfg`, the environment plays no part |
| SrcCollabs.EnvironmentConnectionIsLost | src/common/db/collabs_connector.py:215-219 | on the environment path `cnx` is never set |
| SrcCollabs.CollabsConnector.Open | src/common/db/collabs_connector.py:38-41 | construction raises exactly what the connect raises; the new object's `cnx` is what the connect stored |
| SrcCollabs.CollabsConnector.ConnectCollabsDb | src/common/db/collabs_connector.py:196-224 | returns the connection or error of its plan and updates `cnx` as `StoredAfter` says |
| SrcCollabs.CollabsConnector.FetchRows | src/common/db/collabs_connector.py:52-64 | the shared `fetchall` steps follow `FetchAll` |
| SrcCollabs.CollabsConnector.FetchRow | src/common/db/collabs_connector.py:94-104 | the shared `fetchone` steps follow `FetchOne` |
| SrcCollabs.CollabsConnector.Execute | src/common/db/collabs_connector.py:43-64 | binds `data` only when given and returns every row |
| SrcCollabs.CollabsConnector.UpdateCampaignReportingDates | src/common/db/collabs_connector.py:66-86 | ignores `data` and binds only the campaign ids |
| SrcCollabs.CollabsConnector.GetAdvertiserIds | src/common/db/collabs_connector.py:88-104 | sends the same statement for every brand id, with nothing bound |
| SrcCollabs.CollabsConnector.GetBrandId | src/common/db/collabs_connector.py:106-122 | binds the collaboration id and returns the first row, or 'not found' |
| SrcCollabs.CollabsConnector.GetBrandIdByAdvertiserId | src/common/db/collabs_connector.py:124-140 | splices `str(advertiser_id)` between the `%` wildcards of the LIKE pattern |
| SrcCollabs.CollabsConnector.GetCollaborationIdByObligationId | src/common/db/collabs_connector.py:142-158 | binds the obligation id and returns the first row, or 'not found' |
| SrcCollabs.CollabsConnector.GetObligationIdByPostId | src/common/db/collabs_connector.py:160-177 | binds the post id and returns the first row, or 'not found' |
| SrcCollabs.CollabsConnector.SaveRstyleLinksForObligationId | src/common/db/collabs_connector.py:179-194 | the insert is sent with (obligation id, links) but the call always raises: the cursor has no `commit` |
| SrcPosts.ConnectPlan | src/common/db/posts_connector.py:106-134 | `cfg` wins and is stored; without it the plan succeeds from the environment exactly when host, user and password are set, with `DB_CONFIG` as settings, and loses its connection; otherwise it raises |
| SrcPosts.EnvironmentConnectionIsLost | src/common/db/posts_connector.py:125-129 | on the environment path `cnx` is never set |
| SrcPosts.PostConnector.Open | src/common/db/posts_connector.py:37-40 | construction raises exactly what the connect raises |
| SrcPosts.PostConnector.ConnectPostDb | src/common/db/posts_connector.py:106-134 | returns the connection or error of its plan and updates `cnx` as `StoredAfter` says |
| SrcPosts.PostConnector.FetchRows | src/common/db/posts_connector.py:51-63 | the shared `fetchall` steps follow `FetchAll` |
| SrcPosts.PostConnector.Execute | src/common/db/posts_connector.py:42-63 | binds `data` only when given; 'not found' only for no result set |
| SrcPosts.PostConnector.UpdateBatchPosts | src/common/db/posts_connector.py:65-84 | ignores `data` and binds only the post ids |
| SrcPosts.PostConnector.GetRstyleLinksForPostId | src/common/db/posts_connector.py:86-104 | binds the post id and returns every matching row, possibly none |
| PyCollabs.ConnectPlan | python-scripts/package/rscom/common/db/collabs_connector.py:162-179 | the environment wins and its connection is lost. Otherwise a `cfg` goes to the driver unchanged and is stored. With neither, it raises |
| PyCollabs.OppositePrecedence | python-scripts/package/rscom/common/db/collabs_connector.py:162-179 | with both sources present, the two collaborations connectors choose differently |
| PyCollabs.CollabsConector.Open | python-scripts/package/rscom/common/db/collabs_connector.py:38-41 | construction raises exactly what the connect raises |
| PyCollabs.CollabsConector.ConnectCollabsDb | python-scripts/package/rscom/common/db/collabs_connector.py:152-179 | returns the connection or error of its plan and updates `cnx` as `StoredAfter` says |
| PyCollabs.CollabsConector.FetchRow | python-scripts/package/rscom/common/db/collabs_connector.py:50-60 | the shared `fetchone` steps follow `FetchOne` |
| PyCollabs.CollabsConector.GetAdvertiserIds | python-scripts/package/rscom/common/db/collabs_connector.py:44-60 | the brand id never reaches the statement |
| PyCollabs.CollabsConector.GetBrandId | python-scripts/package/rscom/common/db/collabs_connector.py:62-78 | binds the collaboration id; 'not found' exactly when `fetchone` gives None |
| PyCollabs.CollabsConector.GetBrandIdByAdvertiserId | python-scripts/package/rscom/common/db/collabs_connector.py:80-96 | splices the advertiser id into the LIKE pattern |
| PyCollabs.CollabsConector.GetCollaborationIdByObligationId | python-scripts/package/rscom/common/db/collabs_connector.py:98-114 | binds the obligation id; 'not found' exactly when `fetchone` gives None |
| PyCollabs.CollabsConector.GetObligationIdByPostId | python-scripts/package/rscom/common/db/collabs_connector.py:116-133 | binds the post id; 'not found' exactly when `fetchone` gives None |
| PyPosts.ConnectPlan | python-scripts/package/rscom/common/db/posts_connector.py:72-89 | the environment wins, then `cfg` unchanged; both paths keep the connection; with neither it raises |
| PyPosts.KeepsWhatTheJobLoses | python-scripts/package/rscom/common/db/posts_connector.py:72-76 | from the environment alone this connector stores the connection and the job's posts connector does not |
| PyPosts.PostConnector.Open | python-scripts/package/rscom/common/db/posts_connector.py:37-40 | construction raises exactly what the connect raises |
| PyPosts.PostConnector.ConnectPostDb | python-scripts/package/rscom/common/db/posts_connector.py:62-89 | returns the connection or error of its plan and sets `cnx` on success |
| PyPosts.PostConnector.GetRstyleLinksForPostId | python-scripts/package/rscom/common/db/posts_connector.py:42-60 | returns all rows and raises 'not found' only for no result set |
| Links.ClusterPlan | python-scripts/package/rscom/common/db/links_connector.py:77-100 | environment first: the fixed three contact points, with the port, keyspace and credentials from the environment. Otherwise `cfg`'s host, port and keyspace, without credentials. With neither, it raises |
| Links.HostVariableUnused | python-scripts/package/rscom/common/db/links_connector.py:78-82 | the host variable is checked but its value is never used |
| Links.EnvProvided | python-scripts/package/rscom/common/db/links_connector.py:102-107 | true exactly when the host, user and password variables are set and non-empty (Python truthiness) |
| Links.EnvProvidedIgnoresPortAndKeyspace | python-scripts/package/rscom/common/db/links_connector.py:102-107 | the port and keyspace variables are not checked: changing them does not change the test |
| Links.UseKeyspace | python-scripts/package/rscom/common/db/links_connector.py:84-94 | `"USE %s" % keyspace` splices the keyspace into the text, `None` when there is none, and binds nothing |
| Links.ConnectOutcome | python-scripts/package/rscom/common/db/links_connector.py:67-100 | a connect succeeds exactly when a plan exists, the cluster accepts it and `USE <keyspace>` is answered, and then returns the session of that plan; a missing plan raises its error, and a refused cluster or a failing `USE` re-raises the driver's message |
| Links.SessionAfter | python-scripts/package/rscom/common/db/links_connector.py:83-93 | `session` is set as soon as the cluster connects, before `USE` |
| Links.ConstructionNeedsEnvironment | python-scripts/package/rscom/common/db/links_connector.py:77-100 | with no `cfg` passed, construction without the environment always raises |
| Links.LinkParams | python-scripts/package/rscom/common/db/links_connector.py:60-61 | exactly eleven values are bound |
| Links.LinkParamsMatchColumns | python-scripts/package/rscom/common/db/links_connector.py:57-61 | the i-th value is what the i-th listed column holds; product fields come from `item`, the publisher id from `publisher` |
| Links.AddLinkStatement | python-scripts/package/rscom/common/db/links_connector.py:57-61 | the insert text as written, with eleven values bound, the i-th being what the i-th listed column holds |
| Links.LinksConnector.Open | python-scripts/package/rscom/common/db/links_connector.py:42-44 | construction connects with no `cfg` and raises what that raises |
| Links.LinksConnector.ConnectHyperlinkDb | python-scripts/package/rscom/common/db/links_connector.py:67-100 | returns the session or error and sets `session` as `SessionAfter` says |
| Links.LinksConnector.AddLink | python-scripts/package/rscom/common/db/links_connector.py:46-65 | one insert binding the eleven values; a write error is re-raised |
| Queries.Clean | src/main.py:64 | the cleaned text has no newline and no tab |
| Queries.CleanConcat | src/main.py:78 | cleaning distributes over concatenation |
| Queries.AdvertiserIds | src/common/db/collabs_connector.py:96-97 | `get_advertiser_ids` binds nothing to its statement |
| Queries.AdvertiserIdsIgnoresBrand | src/common/db/collabs_connector.py:96-97 | formatting the template without a `{}` leaves it unchanged, whatever the brand id |
| Queries.BrandByAdvertiser | src/common/db/collabs_connector.py:132-133 | `get_brand_id_by_advertiser_id` binds nothing: the id only reaches the database inside the text |
| Queries.BrandByAdvertiserSplices | src/common/db/collabs_connector.py:132-133 | the advertiser id's text lands between the two `%` wildcards, unescaped, with nothing bound |
| Queries.BindOne | src/common/db/collabs_connector.py:114-115 | `cursor.execute(sql, value)` sends the text as written and passes the value beside it |
| Queries.JoinQuery | src/main.py:74-78 | the join statement as sent holds no newline and no tab |
| Queries.JoinQuerySplices | src/main.py:74-78 | the id text goes into `IN (...)` and newlines and tabs are removed from all of it |
| Queries.JoinQueryKeepsIds | src/main.py:74-78 | an id text without newlines or tabs reaches the statement unchanged |
| PyText.Split | src/main.py:86 | `split` always gives at least one piece |
| PyText.SplitJoin | src/main.py:85-86 | splitting a comma-joined list of comma-free pieces gives the pieces back |
| PyText.QuoteJoinSplit | src/main.py:73-86 | the quoted, comma-joined id list splits back into exactly the quoted ids |
| PyText.QuoteJoinEmpty | src/main.py:85-86 | an empty id list joins to "" and splits into `[""]` |
| PyText.Decimal | src/main.py:73 | `str(int)` contains no comma, newline or tab |
| PyText.DecimalReadsBack | src/main.py:73 | `int(str(i)) == i` |
| PyText.FormatOneNoBraces | src/common/db/collabs_connector.py:96-97 | `format` of a template with no braces at all returns it unchanged |
| PyText.FormatOneSplices | src/main.py:74-78 | `format` puts the argument where the single `{}` was |
| PyText.Remove | src/main.py:64 | `replace(c, '')` removes every `c` and keeps every other character |
| PyText.RemoveAbsent | src/main.py:78 | removing an absent character changes nothing |
| PyText.RemoveConcat | src/main.py:78 | removal distributes over concatenation |
| CivilTime.DaysBeforeNextYear | src/main.py:90-95 | the closed-form day count advances by each year's length |
| CivilTime.MaxOrdinalValue | src/main.py:94 | 9999-12-31 is day 3652059 |
| CivilTime.NextDay | src/main.py:94 | the next day is a valid date one ordinal later |
| CivilTime.AddDays | src/main.py:94 | `n` days later is a valid date `n` ordinals later |
| CivilTime.OrdinalInjective | src/main.py:94 | distinct dates have distinct ordinals |
| CivilTime.InRangeByOrdinal | src/main.py:94 | a date is representable exactly when its ordinal is at most 9999-12-31's |
| CivilTime.AddTimedelta | src/main.py:90-95 | adding days succeeds exactly when the result is not past 9999-12-31; it is that many ordinals later at the same second of the day |
| CivilTime.SixWeeksLaterUnique | src/main.py:90-95 | the instant 42 days later at the same time of day is the only answer |
| CivilTime.Format | src/main.py:94-95 | the text has 19 characters with the separators of `%Y-%m-%d %H:%M:%S` |
| CivilTime.FormatReads | src/main.py:94-95 | each field of the text reads back as its number |
| CivilTime.ClockParts | src/main.py:94-95 | hours, minutes and seconds are in range and recombine to the second of the day |
| CivilTime.ParseFormat | src/main.py:94-95 | the written text parses back to the same instant |
| CivilTime.FormatInjective | src/main.py:94-95 | different instants are written differently |
| CivilTime.SixWeeksAfterNewYear2021 | src/main.py:95 | 2021-01-01 00:00:00 plus six weeks is written "2021-02-12 00:00:00" |
| CivilTime.SixWeeksAfterSeptember2020 | src/main.py:94 | 2020-09-01 00:00:00 plus six weeks is written "2020-10-13 00:00:00" |
| CivilTime.SixWeeksOverflowsAtEnd | src/main.py:94 | 9999-12-01 plus six weeks overflows |
| Lists.Dedup | src/main.py:137 | no duplicates, same members |
| Lists.Without | src/main.py:137 | keeps exactly the members of `a` not in `b` |
| Lists.WithoutSubset | src/main.py:137 | removing a list's own members leaves nothing |
| PyDict.GetPresent | python-scripts/package/rscom/common/utils/custom_formatter.py:7 | a lookup finds a value exactly when the key is present |
| PyDict.GetAt | src/main.py:98 | the key at each position holds the value at that position |
| PyDict.AssignKeys | src/main.py:93 | `d[k] = v` keeps the key order and appends a new key |
| PyDict.AssignGet | src/main.py:93 | after `d[k] = v`, `k` holds `v` and other keys keep their values |
| PyDict.AssignAllSnoc | src/main.py:91-96 | one more loop iteration is one more assignment |
| PyDict.AssignAllKeys | src/main.py:89-98 | one key per distinct key, in order of first occurrence |
| PyDict.AssignAllGet | src/main.py:89-96 | last write wins |
| PyDict.LastValueIsLast | src/main.py:91-96 | the winning pair is one after which its key does not recur |
| PyDict.LastValuePresent | src/main.py:91-96 | a key has a value exactly when some pair has it |
| PyDict.DeleteKeys | python-scripts/package/rscom/common/utils/custom_formatter.py:8 | `del d[k]` removes `k` and keeps the other keys in order |
| PyDict.DeleteGet | python-scripts/package/rscom/common/utils/custom_formatter.py:8 | after `del d[k]`, `k` has no value and other keys keep theirs |
| RepairJobs.Diff | src/main.py:136-137 | the result holds exactly the elements in one list but not the other, each once |
| RepairJobs.DiffSelf | src/main.py:136-137 | a list differs from itself in nothing |
| RepairJobs.Column | src/main.py:72 | `[r[col] for r in rows]` is each row's value, or `KeyError` exactly when some row lacks the column |
| RepairJobs.IdList | src/main.py:72-73 | the id list is empty text exactly when there are no ids |
| RepairJobs.IdListSplits | src/main.py:73-86 | when no id is written with a comma, the id list splits back at its commas into exactly the quoted ids, in post order |
| RepairJobs.CommaIdSplitsInTwo | src/main.py:73-86 | an id written with a comma, such as the text `1,2`, comes back from the split as two pieces, neither a quoted id |
| RepairJobs.IdListOfInts | src/main.py:72-73 | integer ids are written with no comma, newline or tab, so the split gives back the quoted decimals |
| RepairJobs.IdListIsClean | src/main.py:73-78 | an id list whose ids have no newline or tab survives the newline and tab removal |
| RepairJobs.JoinQueryOfIds | src/main.py:74-78 | for such ids the join statement is the cleaned text with the id list inside `IN (...)` |
| RepairJobs.ShiftSixWeeks | src/main.py:90-95 | shifting works exactly for timestamps that stay representable; a string, None or int raises the `TypeError` Python raises |
| RepairJobs.ShiftSixWeeksReadsBack | src/main.py:94-95 | the shifted text reads back as the instant 42 days later at the same time of day |
| RepairJobs.ShiftSixWeeksIsFormat | src/main.py:94-95 | any instant 42 days later at the same time of day is written as the shift's result |
| RepairJobs.NullEntry | src/main.py:91-96 | an entry is keyed by its row's `post_id`; a row without `start_date` raises `KeyError('start_date')` whatever else it lacks, and a missing `post_id` is found only after both dates are read |
| RepairJobs.Year1Entry | src/main.py:128-129 | an entry is keyed by its row's `post_id`; a missing `end_date` raises first, and a missing `post_id` is found only after the end date is read |
| RepairJobs.NullEntryShifts | src/main.py:91-96 | a row gets through exactly when it has the three columns and both dates can be shifted; it maps its post to both shifted dates |
| RepairJobs.Year1EntryShifts | src/main.py:128-129 | a row gets through exactly when its end date can be shifted; only the end date is written |
| RepairJobs.RowEntries | src/main.py:91-96 | a loop that gets through yields one entry per row |
| RepairJobs.RowEntriesRows | src/main.py:91-96 | the loop gets through exactly when no row raises, entry `i` coming from row `i`; otherwise the first raising row decides the error |
| RepairJobs.RowEntriesStopsAt | src/main.py:91-96 | once a prefix raises, the whole loop raises the same error |
| RepairJobs.RowEntriesSnoc | src/main.py:91-96 | one more row either stops the loop or adds its entry |
| RepairJobs.NullBatch | src/main.py:98 | one tuple per item of `values`, in the dict's order: the two shifted dates, then the post id |
| RepairJobs.Year1Batch | src/main.py:131 | one pair per item of `values`, in the dict's order: the shifted end date, then the post id |
| RepairJobs.ValueFromLastRow | src/main.py:91-96 | each entry of `values` is the entry of the last row with that post id |
| RepairJobs.ValuesKeys | src/main.py:89-96 | the keys of `values` are the distinct `post_id`s in order of first occurrence |
| RepairJobs.NullBatchIds | src/main.py:89-98 | the NULL repair emits one tuple per distinct obligation post id |
| RepairJobs.NullBatchFromLastRow | src/main.py:89-98 | each NULL tuple carries the shifted start and end of the last obligation row for its post |
| RepairJobs.Year1BatchIds | src/main.py:126-131 | the 0001 repair emits one pair per distinct campaign post id |
| RepairJobs.Year1BatchFromLastRow | src/main.py:126-131 | each 0001 pair carries the shifted end date of the last campaign row for its post |
| RepairJobs.NullJob | src/main.py:51-99 | the run's stages come in order: a printed difference only after a join, tuples only after the difference, and a run with tuples fails on the missing `executemany` |
| RepairJobs.NullJoin | src/main.py:72-99 | once posts are found the NULL repair cannot end normally; the stages come in order and tuples end in the missing `executemany` |
| RepairJobs.NullWrite | src/main.py:80-99 | after the join the run always fails, keeps the join statement, prints a difference exactly when every obligation has a `post_id`, and ends with tuples only on the missing `executemany` |
| RepairJobs.Year1Job | src/main.py:103-132 | the 0001 repair prints no difference, and a run with tuples has sent the join and fails on the missing `executemany` |
| RepairJobs.Year1Join | src/main.py:116-132 | once posts are found the 0001 repair cannot end normally; tuples end in the missing `executemany` |
| RepairJobs.JobsSucceedOnlyWhenNothingToDo | src/main.py:51-134 | a repair ends normally exactly when its posts query returns no rows |
| RepairJobs.EmptyPostsSkipCollabs | src/main.py:65-113 | with no posts the job returns before querying the collaborations database; a join is sent only for a non-empty post list |
| RepairJobs.NullJobJoins | src/main.py:58-80 | with posts found, the NULL repair continues with the join on exactly those rows |
| RepairJobs.NullJoinQueriesThePosts | src/main.py:72-80 | when no post id is written with a newline or tab, the join statement holds the posts' quoted id list inside `IN (...)` |
| RepairJobs.NullJobWrites | src/main.py:80-86 | once the join has answered, the rest of the job depends on its rows only |
| RepairJobs.UnmatchedIds | src/main.py:84-86 | when no id on either side is written with a comma, the printed difference is exactly the quoted ids on one side only; with no obligations it also holds "" |
| RepairJobs.NullJobBatch | src/main.py:80-99 | the NULL tuples come from the obligations the join returned |
| RepairJobs.Year1JobBatch | src/main.py:123-132 | the 0001 pairs come from the campaigns the join returned |
| RepairJobs.Obligation7Entry | src/main.py:91-96 | an obligation from 2020-09-01 to 2021-01-01 yields ("2020-10-13 00:00:00", "2021-02-12 00:00:00") |
| RepairJobs.Post7Ids | src/main.py:72-86 | post 7's id list is `"7"` and it differs from itself in nothing |
| RepairJobs.NullWriteOne | src/main.py:84-99 | one shiftable obligation row yields exactly one tuple |
| RepairJobs.NullJobExample | src/main.py:51-99 | the worked example ends with the tuple for post 7, lost to the missing `executemany` |
| RepairJobs.FixReportingDatesNull | src/main.py:51-101 | the imperative job computes `NullJob` |
| RepairJobs.NullValues | src/main.py:89-96 | the `values` loop builds the last-write-wins dict of the rows' entries, or stops with the first row's error |
| RepairJobs.FixReportingDates0001 | src/main.py:103-134 | the imperative job computes `Year1Job` |
| RepairJobs.Year1Values | src/main.py:126-129 | the `values` loop of the 0001 repair, the same way |
| RepairJobs.MainOutcome | src/main.py:37-47 | the collaborations connector is built first, so its connect error is the one raised; the `try` block gets through only if the posts connector connects too |
| RepairJobs.MainLines | src/main.py:37-49 | "finished" is always printed last, preceded by the error line exactly when the `try` block raised |
| RepairJobs.NoConfigNeverRuns | src/main.py:37-47 | without a configuration the job always fails, at the latest on the posts connector's unset `cnx` |
| RepairJobs.MainQuietOnlyWithoutWork | src/main.py:37-49 | `main` itself prints only "finished" exactly when both connectors connect and there are no posts to repair |
| RepairJobs.RunRepair | src/main.py:36-49 | `main` builds both connectors from one `cfg`, runs the NULL repair, and prints `MainLines` |

## Left out

- Drivers, networks and databases (`pymysql`, the Cassandra cluster, `boto3`) are function parameters. The SQL that runs inside the databases is not modelled: query results are given rows.
- Logging (`LOGGER.debug` and `LOGGER.error` before each re-raise) has no effect on results and is not modelled.
- `main`'s argument parsing and reading of the configuration file (src/main.py:24-34) are not modelled; `cfg` is a parameter.
- `load_ssm_config` in the connector modules is SSM input and output, and it is never called. src/common/utils/ssm_config.py, the HTTP clients and src/jobs/cp_hyperlink_links.py are not part of this model.
- `cursorclass: DictCursor` is not one of the modelled settings; rows are maps instead.
- Microseconds of a `datetime` and `DATE` columns are not modelled. Only `datetime` values, at whole seconds, are shifted.
- CivilTime.Format: years below 1000 are padded to four digits, whereas platform `strftime` may not pad them.
- ParameterStore.GetParameters: the store answers in request order, once for each time a name it holds is asked for, and without reporting `InvalidParameters`. The real order of the service is not promised.
- PyText.FormatOne: models `str.format` with one argument only for templates whose braces are a single `{}`, which every template in this core is. Escaped braces, numbered or named fields and a second `{}` are not modelled.
- RepairJobs.Diff: the order is first occurrence, not Python's set iteration order. Only membership and distinctness are promised.
- RepairJobs.MainLines: holds only the lines `main` itself prints, so `MainQuietOnlyWithoutWork` says nothing of the job's own "no posts found" line printed on that same path. The jobs' progress prints (counts, "no posts found …", "successfully updated …") are not modelled; the printed difference is the `unmatched` field of a run.
- Links.LinksConnector.AddLink: a link record is a datatype. The attribute access through `Map(data)`, and what a missing attribute does, are not modelled.
- PyCollabs: `save_rstyle_links_for_obligation_id` of the scripts package (python-scripts/package/rscom/common/db/collabs_connector.py:135-150) is the same code as the job connector's, which `SrcCollabs.CollabsConnector.SaveRstyleLinksForObligationId` models; it is not repeated.
