# odev rolling-release plugin: a Dafny model

The odev `rolling-release` plugin lists the Odoo project tasks of the rolling-release
project together with the Odoo databases they name, the subscriptions of those
databases and their latest upgrade requests, or counts those databases by version,
parent and contract. This project models its core:

- the domain algebra of `utils/osv.py` (normalisation to prefix form and `AND`), with
  an evaluator that gives domains a meaning (`Osv`, `DomainEval`);
- the helpers of `utils/utils.py`: the tri-state switch, YES/NO rendering,
  `list_to_dict` and `group_by_record_exists` (`Utils`);
- the record classes (`ApiDtos`, `Dtos`) and the services that build and send search
  queries (`Services`, `UpgradeRequestService`);
- the two families of search strategies: the strategy classes (`StrategyAbstract`,
  `TitleStrategy`, `Bs4Strategy`) and the older mixin strategies (`Mixins`, `ByTitle`,
  `ByBs4`, `RollingSearch`);
- the command that configures a strategy from its flags (`RollingRelease`).

Remote calls are parameters: a `SearchRead` function stands for the server's answer
to a query, and the search methods return the queries they send in order. The
current date, the random choice and the link extraction from HTML descriptions are
parameters as well. Objects the source updates in place (tasks, databases, services,
strategies, the command) are classes; the domain algebra and the helpers are
functions, each paired with lemmas that state what it means.

## Model

| member | source | states |
|---|---|---|
| Osv.Delta | utils/osv.py:26-38 | a token's effect on the arity counter is never below -1 |
| Osv.DeltaCases | utils/osv.py:26-38 | `&` and `\|` add one expected expression, `!` none, a term or any other token takes one away |
| Osv.NormalizeDomain | utils/osv.py:14-42 | the imperative loop, with its front insertion of `&`, returns exactly the reference normalisation `Normalized` |
| Osv.NormTokensError | utils/osv.py:31-36 | a token whose `any` sub-domain fails to normalise makes the whole domain fail with the same error |
| Osv.NormTokensFirstError | utils/osv.py:27-39 | the first failing token decides the error |
| Osv.ScanCounts | utils/osv.py:25-39 | the counter after the loop is one plus every inserted `&` plus the sum of the token arities |
| Osv.AndsMonotone | utils/osv.py:28-30 | `&` tokens are only ever added in front, never removed |
| Osv.AndAdded | utils/osv.py:28-30 | a token read when the counter is 0 adds exactly one `&` in front |
| Osv.NormTokensShape | utils/osv.py:31-39 | normalisation keeps every token, in order, with the same arity; it succeeds exactly when every token does |
| Osv.NormTokenDelta | utils/osv.py:31-38 | normalising a token (list to tuple, `any` sub-domain) keeps its arity |
| Osv.ScanForest | utils/osv.py:27-39 | reading n complete expressions one after another leaves the counter at 0 with n-1 inserted `&` |
| Osv.ImplicitAnd | utils/osv.py:27-42 | n complete expressions side by side normalise to n-1 `&` followed by their tokens |
| Osv.TooFewOperandsRejected | utils/osv.py:40-41 | a domain whose operators are owed more operands than it has raises the syntax error |
| Osv.TrailingOperatorRejected | utils/osv.py:40-41 | a domain ending in an operator raises the syntax error |
| Osv.NormalizedShape | utils/osv.py:22-42 | a successful normalisation is some `&` tokens followed by the normalised input tokens, one for one |
| Osv.NormalizedIsNormalized | utils/osv.py:14-42 | the result is one well-formed prefix expression whose tokens are in normal form |
| Osv.NormTokenIdempotent | utils/osv.py:31-36 | a normalised token is in normal form |
| Osv.NormalizedIdempotent | utils/osv.py:14-42 | normalising a normalised domain gives it back |
| Osv.NormalizedFixpoint | utils/osv.py:14-42 | a well-formed domain of normal tokens is its own normalisation |
| Osv.GatherStopped | utils/osv.py:68-72 | once the loop met the zero or a failing domain, the remaining domains change nothing |
| Osv.Combine | utils/osv.py:45-77 | the imperative loop returns exactly the reference definition `Combined` |
| Osv.CombineOnlyUnits | utils/osv.py:66-77 | domains that are all unit or empty combine to the unit |
| Osv.CombineZero | utils/osv.py:71-72 | a zero domain met before any failure makes the result the zero |
| Osv.GatherParts | utils/osv.py:73-75 | every collected part is non-empty and normalised |
| Osv.WellFormedChain | utils/osv.py:76 | n complete expressions behind n-1 binary operators form one complete expression |
| Osv.CombinedIsNormalized | utils/osv.py:45-77 | `combine` with `&` or `\|` and normalised unit and zero returns a normalised domain |
| Osv.TrueAndFalseNormalized | utils/osv.py:7-11 | TRUE_DOMAIN and FALSE_DOMAIN are normalised |
| Osv.AndIsNormalized | utils/osv.py:80-82 | `AND` returns a normalised domain whenever it succeeds |
| Osv.AndOfTwo | utils/osv.py:73-82 | `AND` of two ordinary domains is `&` followed by both normal forms |
| Osv.AndWithTrue | utils/osv.py:69-82 | TRUE_DOMAIN is a unit of `AND` on either side |
| Osv.TrueThenDomain | utils/osv.py:69-82 | `AND([TRUE_DOMAIN, a])` is `a` normalised |
| Osv.DomainThenTrue | utils/osv.py:69-82 | `AND([a, TRUE_DOMAIN])` is `a` normalised |
| Osv.PlainLeavesNormalized | utils/osv.py:27-42 | n plain terms normalise to n-1 `&` followed by the terms as tuples |
| DomainEval.ConstantDomains | utils/osv.py:7-11 | TRUE_DOMAIN and the empty domain hold and FALSE_DOMAIN does not, under any interpretation of leaves that reads the TRUE and FALSE leaves as such |
| DomainEval.EvalAndChain | utils/osv.py:76 | `count-1` `&` operators in front of the parts evaluate to the conjunction of the parts |
| DomainEval.AbsorbedHasZero | utils/osv.py:71-72 | the `AND` loop stops early only at a FALSE domain among the inputs |
| DomainEval.AndMeansConjunction | utils/osv.py:80-82 | what `AND([D1, D2, ...])` returns evaluates to "D1 and D2 and ..." |
| DomainEval.AndHolds | utils/osv.py:80-82 | the result of `AND` holds exactly when every input domain holds |
| DomainEval.PlainLeavesHold | utils/osv.py:14-18 | a list of plain terms with implicit `&` holds exactly when every term holds |
| Utils.TripleFlag.ToString | utils/utils.py:6-12 | a flag prints as its non-empty value |
| Utils.TripleFlagStringsDistinct | utils/utils.py:6-12 | two flags print the same exactly when they are the same member |
| Utils.YesOrNoValue | utils/utils.py:33-34 | the result is YES exactly when the value is truthy, otherwise NO |
| Utils.FlagsMatchYesOrNo | utils/utils.py:33-34 | the YES and NO flags print as `yes_or_no_value` of a true and of a false value |
| Utils.Render | utils/utils.py:19-22 | the raw value when both it and `value_if_true` are truthy (an error when that value is not a string), otherwise YES/NO by the value's truthiness |
| Utils.BoolStr.constructor | utils/utils.py:16-17 | both arguments are stored as given |
| Utils.RenderYesNo | utils/utils.py:19-22 | without `value_if_true` rendering never fails and gives YES exactly when the value is truthy |
| Utils.ListToDict | utils/utils.py:25-30 | the loop builds exactly the reference dictionary `BuildDict` |
| Utils.BuildDictKeys | utils/utils.py:25-30 | the keys are those of the input, each once, in order of first occurrence |
| Utils.BuildDictHasKey | utils/utils.py:25-30 | a key is present exactly when some element has it |
| Utils.BuildDictLastWins | utils/utils.py:28-29 | each key maps to the last element with that key |
| Utils.BuildDictValues | utils/utils.py:25-30 | every value is an input element stored under its own key |
| Utils.MarkRow | utils/utils.py:40 | the row's key is overwritten with YES/NO by its truthiness and nothing else changes |
| Utils.TallyRows | utils/utils.py:38-41 | the loop marks every row and leaves the reference tally of the rows' readings |
| Utils.BucketRows | utils/utils.py:42 | one fresh row `{key: k, "__count": v}` per bucket, in bucket order |
| Utils.GroupByRecordExists | utils/utils.py:37-42 | every row is marked in place, and one fresh row per bucket carries that bucket's total, in order of first occurrence |
| Utils.TallyKeys | utils/utils.py:38-42 | one bucket per label, each once, in order of first occurrence |
| Utils.TallyYesNo | utils/utils.py:37-42 | the buckets are only YES and NO, each at most once |
| Utils.TallyConserves | utils/utils.py:38-42 | the bucket totals add up to the sum of the row counts |
| ApiDtos.Arg | api/dtos/Subscription.py:10 | a keyword argument is the row's value when present and the declared default otherwise |
| ApiDtos.Subscription.constructor | api/dtos/Subscription.py:10-12 | the id is stored and the reference is wrapped in a fresh BoolStr that does not show the raw value |
| ApiDtos.Subscription.FromRow | api/dtos/Subscription.py:10-12 | `Subscription(**row)` takes `id` and `client_order_ref` from the row, None when absent |
| ApiDtos.Subscription.GetSubValue | api/dtos/Subscription.py:14-16 | the wrapper now remembers `show_sub`, and the result is the rendering `SubValue` |
| ApiDtos.SubValue | api/dtos/Subscription.py:14-16 | without `show_sub` the cell is YES/NO by the reference's truthiness; with it, a set string reference is shown as itself |
| ApiDtos.UpgradeRequest.HasTraceback | api/dtos/UpgradeRequest.py:18-20 | every access builds a fresh BoolStr of the last traceback |
| ApiDtos.UpgradeRequest.TracebackCell | api/dtos/UpgradeRequest.py:18-20 | the cell is YES exactly when a traceback is set, otherwise NO |
| ApiDtos.UpgradeRequestReprFields | api/dtos/UpgradeRequest.py:22-23 | for an integer or `None` id, cutting the repr after `UpgradeRequestDTO(` at its first ", " and before the closing `)` gives back `str(id)` and `str(db_uuid)`; a non-negative id parses back from its digits |
| ApiDtos.UpgradeRequestFromRow | api/dtos/UpgradeRequest.py:11-16 | the fields come from the row, with None, "" and None as defaults; an empty row gives the default request |
| ApiDtos.DateValidOf | api/dtos/Database.py:37 | no date for a falsy value, the parsed date for a string `strptime` accepts, an error otherwise |
| ApiDtos.Pad2Digits | api/dtos/Database.py:40 | a day or month prints as two digits that read back as the number |
| ApiDtos.FormatDateFields | api/dtos/Database.py:39-40 | the `%d-%m-%Y` string has dashes at 2 and 5 and gives back day, month and year |
| ApiDtos.Database.constructor | api/dtos/Database.py:20-37 | the arguments are stored, the parent flag is wrapped in a fresh BoolStr, and subscription and upgrade request keep their class defaults |
| ApiDtos.Database.FromRow | api/dtos/Database.py:20-37 | `Database(**row)` uses the keyword defaults for absent keys and fails exactly when the date does not parse |
| ApiDtos.Database.GetDateValid | api/dtos/Database.py:39-40 | "" exactly when there is no date, otherwise the formatted date |
| ApiDtos.Database.ParentCell | api/dtos/Database.py:35 | the parent cell is YES exactly when the parent id is truthy, otherwise NO |
| ApiDtos.DatabaseReprFields | api/dtos/Database.py:42-43 | for an integer or `None` id, cutting the repr after `DatabaseDTO(` at its first ", " and before the closing `)` gives back `str(id)` and `str(db_name)`; a non-negative id parses back from its digits |
| ApiDtos.DisplayNamePlain | api/dtos/Task.py:32-33 | a name without "[rr] " is its own display name |
| ApiDtos.DisplayNameMarked | api/dtos/Task.py:32-33 | a leading "[rr] " is removed, and so is every further one |
| ApiDtos.DisplayNameSinglePass | api/dtos/Task.py:32-33 | `replace` makes one pass: a marker split by another one survives once the inner one is removed |
| ApiDtos.TaskLinkDeterminesId | api/dtos/Task.py:42-43 | for a fixed base URL, the link determines a non-negative integer id |
| ApiDtos.TaskLinkShape | api/dtos/Task.py:42-43 | the link is the base URL, `/odoo/my-tasks/`, then the id |
| ApiDtos.RowOf | api/dtos/Task.py:45-56 | five or six cells in the source's order, the traceback cell inserted at index 4 in upgrade mode, an error when that mode has no request |
| ApiDtos.DatabaseUrlOf | api/dtos/Task.py:36-40 | "" for a falsy description, otherwise the extracted link without `/_odoo/support` |
| ApiDtos.Task.constructor | api/dtos/Task.py:16-29 | the arguments are stored and the database is the shared class default |
| ApiDtos.Task.FromRow | api/dtos/Task.py:16-29 | `Task(**row)` fails without `id` or `name` and otherwise stores the row's fields |
| ApiDtos.Task.GetCleanRow | api/dtos/Task.py:45-56 | the subscription wrapper now remembers `show_sub`, and the row is `RowOf` the task's fields |
| ApiDtos.TaskReprFields | api/dtos/Task.py:58-59 | for an integer or `None` id, cutting the repr after `TaskDTO(` at its first ", " and before the closing `)` gives back `str(id)` and the whole name, even one holding ", "; a non-negative id parses back from its digits |
| Dtos.Database.constructor | dtos/Database.py:18-33 | the arguments are stored, the parent flag is wrapped in a fresh BoolStr, and subscription and upgrade request keep their class defaults |
| Dtos.Database.FromRow | dtos/Database.py:18-33 | `Database(**row)` takes each field from the row or its keyword default |
| Dtos.Database.ParentCell | dtos/Database.py:32 | the parent cell is YES exactly when the parent id is truthy, otherwise NO |
| Dtos.Task.constructor | dtos/Task.py:12-17 | the arguments are stored and the database is the shared class default |
| Dtos.Task.FromRow | dtos/Task.py:14-17 | `Task(**row)` fails without `id` or `name` and otherwise stores the row's fields |
| Dtos.Task.GetCleanRow | dtos/Task.py:33-43 | the subscription wrapper now remembers `show_sub`, and the row is the five cells (no date) with the traceback cell at index 4 when upgrades are enabled |
| Services.ModelName | api/services/service_abstract.py:28 | only the generic service has no model name; the upgrade-request service's is `upgrade.request` |
| Services.NextDomainConjoins | api/services/service_abstract.py:41-43 | after `with_domain`, a record matches the service's domain exactly when it matched the old domain and matches the new one |
| Services.WithFlags | api/services/task_service.py:22-26 | the record gains `show_sub` and `upgrade_mode` and keeps every other key and value |
| Services.Service.constructor | api/services/service_abstract.py:33-36 | a new service has an empty domain, the fields `["id"]`, no limit, and the task flags off |
| Services.Service.WithDomain | api/services/service_abstract.py:41-43 | the new domain replaces an empty one and is conjoined with `AND` to a non-empty one; an `AND` failure leaves the domain as it was; nothing else changes |
| Services.Service.WithFields | api/services/service_abstract.py:45-47 | the field list is extended in place, duplicates kept; nothing else changes |
| Services.Service.WithLimit | api/services/service_abstract.py:49-51 | the limit is set; nothing else changes |
| Services.Service.WithSub | api/services/task_service.py:14-16 | `show_sub` becomes true; nothing else changes |
| Services.Service.WithUpgradeMode | api/services/task_service.py:18-20 | `upgrade_mode` becomes true; nothing else changes |
| Services.Service.Added | api/services/task_service.py:22-26 | a task service adds its two flags to a record; every other service leaves it as it is |
| Services.Service.AddResponse | api/services/service_abstract.py:57-59 | the record is updated in place to `Added` of what it was |
| Services.Service.FetchQuery | api/services/service_abstract.py:61-71 | no model name fails first, then an unset limit; otherwise the query carries the service's model, domain, fields and limit |
| Services.Service.Cleaned | api/services/service_abstract.py:53-55 | services other than the upgrade-request one leave the server's answer as it is |
| Services.Service.Fetch | api/services/service_abstract.py:61-73 | the errors of `FetchQuery`, otherwise one record per cleaned answer row, each passed through `_add_response`, in order |
| Services.Service.ModelRows | api/services/service_abstract.py:73 | one record per row, in order, each the row with `_add_response` applied |
| Services.Service.FetchGroup | api/services/service_abstract.py:78-84 | the grouped counts as the server returns them without a wrapper, or one YES/NO bucket row per first-seen bucket with its total with one |
| Services.NewDicts | api/services/service_abstract.py:79-83 | one fresh, distinct dict per answer row |
| Services.CleanStats | api/services/service_abstract.py:75-76 | without a callable wrapper the rows come back untouched; with `group_by_record_exists` they are bucketed |
| StrategyAbstract.Strategy.constructor | api/strategy/strategy_abstract.py:27-40 | the arguments are stored and every switch keeps its class default (no task name, BOTH, BOTH, no subscriptions, not-found hidden, not lucky, no validity order) |
| StrategyAbstract.Strategy.WithTaskName | api/strategy/strategy_abstract.py:42-44 | only the task name changes, and the strategy itself is returned |
| StrategyAbstract.Strategy.WithParent | api/strategy/strategy_abstract.py:46-48 | only the parent switch changes, to YES by default |
| StrategyAbstract.Strategy.WithContract | api/strategy/strategy_abstract.py:50-52 | only the contract switch changes |
| StrategyAbstract.Strategy.WithShowSub | api/strategy/strategy_abstract.py:54-56 | only `show_sub` changes, to true |
| StrategyAbstract.Strategy.ShowNotFound | api/strategy/strategy_abstract.py:58-60 | only `hide_not_found` changes, to false |
| StrategyAbstract.Strategy.OnlyLuck | api/strategy/strategy_abstract.py:62-64 | only `lucky` changes, to true |
| StrategyAbstract.Strategy.WithOrderByValidity | api/strategy/strategy_abstract.py:66-68 | only `order_by_validity` changes, to true |
| UpgradeRequestService.Decorate | api/services/upgrade_request_service.py:15-18 | each record paired with the `db_uuid` it is sorted and grouped by and the `id` its maximum is taken by |
| UpgradeRequestService.DecoratedRows | api/services/upgrade_request_service.py:15-18 | the decorated records are the records themselves, in order |
| UpgradeRequestService.SortedByUuid | api/services/upgrade_request_service.py:15 | the stable sort by `db_uuid` is a permutation |
| UpgradeRequestService.SortedAscending | api/services/upgrade_request_service.py:15 | the sorted records ascend by `db_uuid` |
| UpgradeRequestService.SortedRows | api/services/upgrade_request_service.py:15 | sorting rearranges the records and nothing more |
| UpgradeRequestService.KeepMax | api/services/upgrade_request_service.py:16-19 | grouping never adds records, and the last group is the last record's `db_uuid` |
| UpgradeRequestService.KeepMaxMembers | api/services/upgrade_request_service.py:16-19 | every kept record is an input record |
| UpgradeRequestService.KeepMaxCovers | api/services/upgrade_request_service.py:17 | every input `db_uuid` is represented |
| UpgradeRequestService.KeepMaxAscending | api/services/upgrade_request_service.py:15-17 | on sorted input, one record per `db_uuid`, in strictly increasing order |
| UpgradeRequestService.KeepMaxIsMax | api/services/upgrade_request_service.py:18 | on sorted input, each kept record has the highest `id` of its `db_uuid` |
| UpgradeRequestService.CleanedMembers | api/services/upgrade_request_service.py:13-19 | each returned request is one of the server's records |
| UpgradeRequestService.CleanedConsistent | api/services/upgrade_request_service.py:13-19 | the keys of each kept record are the ones read from it |
| UpgradeRequestService.CleanedCovers | api/services/upgrade_request_service.py:13-19 | every `db_uuid` the server returned is represented |
| UpgradeRequestService.CleanedMax | api/services/upgrade_request_service.py:13-19 | each returned request has the highest `id` among the server's records with its `db_uuid` |
| UpgradeRequestService.CleanedRequests | api/services/upgrade_request_service.py:13-19 | one record per `db_uuid` in strictly increasing order, each a returned record, every `db_uuid` represented, each with the highest `id` |
| UpgradeRequestService.SortedResponse | api/services/upgrade_request_service.py:15 | the sorted response is a permutation of the response |
| UpgradeRequestService.SortByUuid | api/services/upgrade_request_service.py:15 | the array is sorted in place into `SortedResponse` |
| UpgradeRequestService.RedecorateSorted | api/services/upgrade_request_service.py:15-17 | reading the keys from the sorted records gives the sorted decorated records |
| UpgradeRequestService.GroupMax | api/services/upgrade_request_service.py:16-19 | the loop over `groupby` keeps exactly `KeepMax` of the records |
| UpgradeRequestService.CleanForModel | api/services/upgrade_request_service.py:13-19 | the response is left sorted in place and the returned records are the grouped maxima of the sorted response |
| TitleStrategy.LeafDomainHolds | api/strategy/title_strategy.py:44 | a one-term domain holds exactly when its term does |
| TitleStrategy.AndOfPairHolds | api/strategy/title_strategy.py:45-56 | `AND([a, b])` holds exactly when both `a` and `b` hold |
| TitleStrategy.AndOfNormalOk | api/strategy/title_strategy.py:45-56 | `AND` of two domains that normalise succeeds and returns a normal form |
| TitleStrategy.TaskFields | api/strategy/title_strategy.py:37-39 | the title strategy asks for the task name only |
| TitleStrategy.NameFiltered | api/strategy/title_strategy.py:41-46 | without a non-empty task name the configured domain as is; with one, `AND` of it and the `ilike` leaf |
| TitleStrategy.NameFilteredMeaning | api/strategy/title_strategy.py:41-46 | a task matches the filtered domain exactly when it matches the configured domain and, with a name, the `ilike` leaf |
| TitleStrategy.NameFilteredShape | api/strategy/title_strategy.py:41-46 | with a name, the domain is `&`, the normalised configured domain, then the name leaf |
| TitleStrategy.AddDatabaseExtraConfigDomains | api/strategy/title_strategy.py:48-57 | the domain narrowed by the parent and contract switches, as `ExtraConfigured` defines it |
| TitleStrategy.ApplyExtraDomains | api/strategy/title_strategy.py:49-57 | the loop over `extra_domains` gives exactly `ExtraConfigured` |
| TitleStrategy.NarrowedByStaysFailed | api/strategy/title_strategy.py:53-56 | once an `AND` in the loop fails, the loop's result is that failure |
| TitleStrategy.NarrowedMeaning | api/strategy/title_strategy.py:54-56 | a switch other than BOTH adds `field != False` for YES or `field = False` for NO, and a record matches exactly when it matched before and meets that leaf |
| TitleStrategy.ExtraConfiguredMeaning | api/strategy/title_strategy.py:48-57 | the narrowed domain never fails, and a record matches it exactly when it matches the domain and both switches accept it |
| TitleStrategy.ExtraConfiguredBoth | api/strategy/title_strategy.py:53-54 | with both switches at BOTH the domain is left exactly as it was |
| TitleStrategy.ExtraConfiguredOrder | api/strategy/title_strategy.py:49-56 | with both switches set, the parent leaf is conjoined first and the subscription leaf second |
| TitleStrategy.TwoLeafDomainHolds | api/strategy/title_strategy.py:61-65 | the domain `["&", a, b]` holds exactly when both leaves hold |
| TitleStrategy.GetDatabasesDomain | api/strategy/title_strategy.py:59-66 | the domain on the tasks' display names and the last-ping cutoff, narrowed by the switches |
| TitleStrategy.DatabasesDomainMeaning | api/strategy/title_strategy.py:59-66 | a database matches exactly when its name is one of the display names, its last ping is after the cutoff and the switches accept it |
| TitleStrategy.SubscriptionDomain | api/strategy/title_strategy.py:68-70 | one `id in ids` leaf whose ids are exactly the databases' set subscription ids, in order |
| TitleStrategy.UpgradeRequestDomain | api/strategy/title_strategy.py:72-78 | the three leaves on the databases' set `db_uuid`s, the excluded states and both active values |
| TitleStrategy.UpgradeRequestDomainIsConjunction | api/strategy/title_strategy.py:74-78 | the three implicit-`&` leaves normalise to `& &` in front and hold exactly when all three hold |
| TitleStrategy.KeptMembers | api/strategy/title_strategy.py:93-94 | a task name is kept exactly when a database has that name or not-found databases are shown |
| TitleStrategy.KeptDistinct | api/strategy/title_strategy.py:93-94 | kept names are distinct, and with not-found databases shown every name is kept |
| TitleStrategy.AttachDatabase | api/strategy/title_strategy.py:94-100 | the task gets the found database or a fresh default one; that database gets the subscription with its id, or a fresh empty one when none has it, and the request for its uuid (a fresh default) only when requests are attached |
| TitleStrategy.MergeRecords | api/strategy/title_strategy.py:80-102 | one task per kept display name, in first-seen order, each merged with its database, its subscription (a default `Subscription()` with no id or reference when none matches) and its request; other tasks and databases keep their links; without an upgrade connection and a non-empty request list, no database's request changes |
| TitleStrategy.MergeTasks | api/strategy/title_strategy.py:92-102 | the loop over the task dictionary returns the kept tasks, each with its database, its subscription or a default `Subscription()` when none matches, and its request; tasks not kept keep their database, databases no kept task points at keep their subscription and request, and with no request dictionary no database's request changes |
| TitleStrategy.TransformToRows | api/strategy/title_strategy.py:104-106 | the rows of all tasks, or the first rendering failure; in lucky mode the one row `pick` selects, and an error when there are no rows; when every row renders, each customer-reference wrapper keeps the `show_sub` of the last task that uses it |
| TitleStrategy.LinkWidth | api/strategy/title_strategy.py:117 | the width is at least every link's length and is attained by one of them; 0 without rows |
| TitleStrategy.TaskHeaders | api/strategy/title_strategy.py:109-122 | six headers ending with Exp Date and the sized Link; with upgrades a seventh, Traceback, at index 4 |
| TitleStrategy.DisplayTaskList | api/strategy/title_strategy.py:108-123 | the rows unchanged, under `TaskHeaders` for whether an upgrade connection is set and the longest link |
| TitleStrategy.CleanRowsHaveLinks | api/strategy/title_strategy.py:105-117 | every rendered row ends with its own task's link, one row per task, so the table can be sized |
| TitleStrategy.SortByDateAscending | api/strategy/title_strategy.py:177-184 | the sort by date leaves the tasks in ascending date order |
| TitleStrategy.GetOrderedTasks | api/strategy/title_strategy.py:177-184 | a permutation of the tasks in ascending date order; with two or more tasks, a task without a date makes the sort fail |
| TitleStrategy.CellOf | api/strategy/title_strategy.py:194 | "" for a missing key, a string as it is and an integer in decimal |
| TitleStrategy.DisplayStatsList | api/strategy/title_strategy.py:189-194 | the group title and Count headers, and one row per record with its group value and count |
| TitleStrategy.CountCellRoundTrip | api/strategy/title_strategy.py:194 | a count cell is all digits and reads back as the count |
| Bs4Strategy.Bs4TaskFields | api/strategy/bs4_strategy.py:9-12 | the title strategy's fields with `description` appended |
| Bs4Strategy.TaskFieldsOf | api/strategy/bs4_strategy.py:9-12 | the title strategy asks for `name`, the description strategy for `name` and `description` |
| Bs4Strategy.DatabaseUrls | api/strategy/bs4_strategy.py:18 | one database URL per task, in order |
| Bs4Strategy.GetDatabaseDomain | api/strategy/bs4_strategy.py:14-21 | the URL domain on the tasks' database URLs and the cutoff, narrowed by the switches |
| Bs4Strategy.UrlDomainMeaning | api/strategy/bs4_strategy.py:14-21 | a database matches exactly when its URL is one of the tasks' URLs, its last ping is after the cutoff and the switches accept it |
| Bs4Strategy.DatabasesDomainOf | api/strategy/title_strategy.py:149 | the hook the search calls resolves to the title strategy's name-based domain |
| Bs4Strategy.UrlDomainUnused | api/strategy/bs4_strategy.py:14 | the domain the description strategy sends is never its URL domain |
| Mixins.RollingMixing.constructor | api/mixins/mixins.py:33-50 | the Odoo URL stored behind `https://` and its connection on that URL; with upgrades the upgrade URL stored behind `https://` and its connection on the URL as given; the switches at their class defaults |
| Mixins.AddExtraConfigDomains | api/mixins/mixins.py:87-96 | the domain narrowed by the parent switch and then the contract switch, the same narrowing the title strategy proves meaningful |
| Mixins.RequestsFrom | api/mixins/mixins.py:131 | one request per row, in order |
| Mixins.KeepLatestRequests | api/mixins/mixins.py:127-131 | the response array is left sorted by `db_uuid` and the result is `LatestRequests` of the original response |
| Mixins.KeptFromResponse | api/mixins/mixins.py:128-131 | every returned request is made from a row of the response |
| Mixins.KeptCoversResponse | api/mixins/mixins.py:129-130 | every `db_uuid` in the response has a returned request |
| Mixins.KeptUuidsAscending | api/mixins/mixins.py:127-130 | the returned requests have strictly ascending `db_uuid`s, so one per `db_uuid` |
| Mixins.KeptHighestIds | api/mixins/mixins.py:130 | each returned request has the highest `id` of the rows with its `db_uuid` |
| Mixins.LatestRequestsMeaning | api/mixins/mixins.py:121-131 | the latest requests are from the response, cover each of its `db_uuid`s once, in ascending order, each with the highest `id` |
| ByTitle.GetTasksDomain | api/strategy/by_title.py:17-22 | the title strategy's name-filtered task domain, whose meaning `TitleStrategy.NameFilteredMeaning` states |
| ByTitle.DisplayNames | api/strategy/by_title.py:31 | one display name per task, in order |
| ByTitle.GetDatabasesDomain | api/strategy/by_title.py:27-33 | the `&` of the display-name leaf and the last-ping leaf, without the switches |
| ByTitle.TwoLeafDomainMeaning | api/strategy/by_title.py:29-33 | a `&` of two plain leaves normalises to itself and holds exactly when both leaves hold |
| ByTitle.DatabasesDomainMeaning | api/strategy/by_title.py:27-33 | a database matches exactly when its name is one of the display names and its last ping is after the cutoff |
| ByTitle.SubsDomain | api/strategy/by_title.py:47-48 | a single `id in ids` leaf |
| ByTitle.SubsDomainMeaning | api/strategy/by_title.py:47-48 | a subscription matches exactly when its id leaf holds |
| ByTitle.GetUpgradeRequestDomain | api/strategy/by_title.py:53-58 | the three leaves on the given uuids, the excluded states and both active values |
| ByTitle.AttachDatabase | api/strategy/by_title.py:79-86 | the task gets the found database or a fresh default one; the subscription is replaced only when subscriptions are shown and the request only when upgrades are enabled, each by its id or a fresh default |
| ByTitle.MergeRecords | api/strategy/by_title.py:63-88 | one task per kept display name, in first-seen order, each merged with its database, its subscription when shown (a default `Subscription()` with no id or reference when none matches) and its request when upgrades are enabled; the default database given to an unmatched name (stated to lie outside the fetched databases) keeps the class-level subscription when subscriptions are hidden and has no request when upgrades are off; other tasks and databases keep their links; with subscriptions hidden no database's subscription changes, and with upgrades off no database's request changes |
| ByTitle.MergedHaveRequests | api/strategy/by_title.py:75-86 | with upgrades enabled every kept database gets a request, the default one when no fetched request has its uuid |
| ByTitle.TransformToRows | api/strategy/by_title.py:90-92 | the rows of all tasks, or the first rendering failure; in lucky mode the one row `pick` selects, and an error when there are no rows; when every row renders, every task's customer-reference wrapper holds `show_sub` |
| ByTitle.CleanRowsShape | api/strategy/by_title.py:91-102 | every row has 5 cells, 6 with upgrades, and ends with its task's link |
| ByTitle.TaskHeaders | api/strategy/by_title.py:95-107 | five headers ending with the sized Link; with upgrades a sixth, Traceback, at index 4 |
| ByTitle.DisplayTaskList | api/strategy/by_title.py:94-108 | fails exactly when there are no rows (`max` of nothing); otherwise the rows unchanged under `TaskHeaders` with the longest link's width |
| ByBs4.TasksFields | api/strategy/by_bs4.py:9-12 | the by-title fields with `description` appended |
| ByBs4.DatabaseUrls | api/strategy/by_bs4.py:18 | one database URL per task, in order |
| ByBs4.GetDatabasesDomain | api/strategy/by_bs4.py:14-20 | the `&` of the URL leaf and the last-ping leaf |
| ByBs4.DatabasesDomainMeaning | api/strategy/by_bs4.py:14-20 | a database matches exactly when its URL is one of the tasks' URLs and its last ping is after the cutoff |
| RollingSearch.TaskNames | api/mixins/mixins.py:104 | the display names of the tasks the task rows make, one per row |
| RollingSearch.TaskUrls | api/mixins/mixins.py:104 | the database URLs of the tasks the task rows make, one per row |
| RollingSearch.Column | api/mixins/mixins.py:57-62 | one `row.get(key, default)` value per row |
| RollingSearch.TasksFields | api/mixins/mixins.py:101 | `id`, `name` by title; `id`, `name`, `description` by description |
| RollingSearch.DatabasesDomainByKind | api/mixins/mixins.py:108 | the by-title strategy sends a `db_name` domain and the by-description one a `url` domain |
| RollingSearch.TasksFromRows | api/mixins/mixins.py:98-104 | fails exactly when a row lacks `id` or `name`; otherwise one fresh task per row, in order, with its id, name and description, all on the shared default database |
| RollingSearch.DatabasesFromRows | api/mixins/mixins.py:106-113 | one fresh database per row, in order, with the row's id, version, name, uuid, parent and subscription id or their defaults (`NO VERSION`, `NO NAME`, `""`, `False`, `None`); each keeps the class-level subscription, has no request and a parent flag whose `value_if_true` is `False` |
| RollingSearch.SubsFromRows | api/mixins/mixins.py:115-119 | one fresh subscription per row, in order, with the row's id and customer reference or `None`, the reference's `value_if_true` `False` |
| RollingSearch.SubscriptionIds | api/mixins/mixins.py:57 | the databases' subscription ids, in order |
| RollingSearch.DbUuids | api/mixins/mixins.py:62 | the databases' `db_uuid`s, in order |
| RollingSearch.FetchSubs | api/mixins/mixins.py:115-119 | the subscription query for the databases' set subscription ids, and one subscription per row of its answer, in order |
| RollingSearch.FetchRequests | api/mixins/mixins.py:121-131 | the upgrade-request query on the upgrade server for the databases' set uuids, and the latest request per uuid of its answer |
| RollingSearch.FetchExtras | api/mixins/mixins.py:56-65 | subscriptions exactly when shown, requests exactly when upgrades are enabled, each on its own query; the subscriptions are one per row of their answer, in order, and the requests the latest per uuid of theirs |
| RollingSearch.FetchTasks | api/mixins/mixins.py:98-104 | the answer to the task query; it fails exactly when a row lacks `id` or `name`, otherwise one fresh task per row, in order, on the shared default database, whose links or display names are those of the rows |
| RollingSearch.FetchDatabases | api/mixins/mixins.py:54-65 | fails exactly when the database domain does not normalise; otherwise the database query comes first, then the optional queries; the databases are one per row of its answer, in order, and the subscriptions and requests those of the optional queries' answers (`FetchedFrom`), with the class-level defaults left in place |
| RollingSearch.Fetch | api/mixins/mixins.py:52-65 | a failing task domain is the result; otherwise the queries are sent in the order `SearchQueries` describes, the tasks are one per row of the task answer on the shared default database, and the databases, subscriptions and requests those built from the later answers (`FetchedFrom`) |
| RollingSearch.Search | api/mixins/mixins.py:52-67 | the same queries, then the merge of what they returned |
| RollingRelease.StrategyFor | commands/rolling_release.py:88-93 | the description strategy exactly when `-bs4` is given |
| RollingRelease.RollingReleaseCommand.SetStrategy | commands/rolling_release.py:88-93 | records the strategy class `-bs4` selects and nothing else |
| RollingRelease.SingleConfsMeaning | commands/rolling_release.py:95-114 | `-g` clears `hide_not_found`, `-l` sets `lucky`, `-ex` sets `show_sub`; everything else stays |
| RollingRelease.RollingReleaseCommand.SetSingleConfigs | commands/rolling_release.py:95-114 | the strategy changes as the loop over the single flags defines and in no other field |
| RollingRelease.DoubleFlag | commands/rolling_release.py:132-138 | the positive flag gives YES, else the negative flag NO, else the switch is unchanged |
| RollingRelease.DoubleConfsMeaning | commands/rolling_release.py:116-138 | the contract switch follows the contract flags and the parent switch the parent flags; nothing else changes |
| RollingRelease.RollingReleaseCommand.SetDoubleConfigs | commands/rolling_release.py:116-138 | the strategy changes as the loop over the double flags defines and in no other field |
| RollingRelease.RpcConnection | commands/rolling_release.py:140-141 | a connection on the given URL and database |
| RollingRelease.RollingReleaseCommand.SetupRunConf | commands/rolling_release.py:143-168 | a fresh strategy of the selected class configured from the stored settings, an upgrade connection only with `-u`, then the double flags, the single flags and a non-empty task name |
| RollingRelease.RollingReleaseCommand.GroupByList | commands/rolling_release.py:183-200 | version unwrapped, then parent and subscription with the record-exists wrapper on their own key; with `-u` the subscription entry again |

## Left out

- The RPC transport, `search_read` and `read_group`: servers are functions from a query to rows.
- `datastore/config.py` and `commands/rolling_release_config.py` (stored settings and the command that edits them) are not part of this model; the settings reach `SetupRunConf` as an `RrConfig` value.
- `api/services/database_service.py` only names its model; that constant is in `Services.ModelName`.
- The link extraction from task descriptions with BeautifulSoup is the parameter `HrefOf`. A non-empty description with no `<a href>` makes the source raise a TypeError (api/dtos/Task.py:39-40); the model folds that case into `HrefOf`, which always returns a string.
- The clock, `strftime` and `strptime` are parameters: the 30-day cutoff arrives as a date string, and expiry dates as parsed values.
- `random.choice` is the parameter `pick`, taken modulo the number of rows.
- Logging, progress spinners, table printing and `TableHeader` styles are not modelled; headers keep their titles and minimum widths.
- The orchestration of the title-search and statistics paths of the strategy classes, the mixin `stats`, and the command's `run`, `list_databases` and the loop of `list_all_stats` are not modelled as methods; their parts are. The by-title `_display_stats_list` (api/strategy/by_title.py:110-115) has the same text as the title strategy's and is modelled by `TitleStrategy.DisplayStatsList`; the mixin `_clean_stats` (api/mixins/mixins.py:133-134) has the same text as the service's and is modelled by `Services.CleanStats`.
- `dtos/Subscription.py` and `dtos/UpgradeRequest.py` of the older package are not part of this model; the `api/dtos` classes stand in for them.
- Python hashing and `1 == True` are not modelled: dictionary keys, and the `==` tests of `combine` against the unit and zero domains (utils/osv.py:66-72), compare as `PyVal` values, so `[(True, "=", 1)]`, which Python takes for the unit `[(1, "=", 1)]`, is an ordinary domain here.
- `TitleStrategy.Earlier` compares dates field by field in place of `timestamp()`; time zones are not modelled.
- RollingSearch.Search: stops at the merged tasks; its contract states the queries sent, not the merged result, because the fresh records' aliasing with the shared default database is not proved (`RowsReady` is left to the caller).
- RollingSearch.Fetch: requires `Decodable`, an assumption about what the servers answer (string task names, upgrade rows with a string `db_uuid` and an integer `id`).
- ApiDtos.Task.FromRow, Dtos.Task.FromRow and RollingSearch.TasksFromRows: require a string `name` when one is present, the same server assumption; the source accepts any value when it builds the task and would fail only later, in `display_name`.
- Mixins.KeepLatestRequests: requires `AllUpgradeRows`, the same assumption about the upgrade server's rows.
- TitleStrategy.GetOrderedTasks: does not state that the sort is stable.
- TitleStrategy.MergeRecords: states that a new default database is not one of the fetched databases rather than that it is fresh; two unmatched names are not stated to get distinct databases.
- TitleStrategy.MergeTasks: same as `TitleStrategy.MergeRecords`.
- ByTitle.MergeRecords: same as `TitleStrategy.MergeRecords`; `ByTitle.AttachDatabase` states freshness for one name at a time.
- TitleStrategy.TransformToRows: states the customer-reference wrappers' final `value_if_true` only when every row renders; after a failure, the wrappers of the tasks rendered up to the failing one have been updated too, and the contract does not say so.
- ByTitle.TransformToRows: same as `TitleStrategy.TransformToRows`.
- Utils.GroupByRecordExists: requires distinct row objects; the source would mark an aliased row twice.
- Utils.GroupByRecordExists: requires every row to carry the grouped key and an integer `__count`, and the key to differ from `__count`, where the source raises a KeyError or a TypeError on such rows.
- Services.CleanStats: requires distinct row objects, for the same reason.
- Services.Service.FetchGroup: returns an error for a service without a model name, where the source sends a query with no model and the server rejects it.
- Services.Service.Fetch: requires the upgrade-request server to answer rows with a string `db_uuid` and an integer `id`, where the source would raise on others.
- Services.Service.FetchGroup: with the record-exists wrapper, requires every grouped row to carry an integer count and the grouped key, where the source would raise on others.
