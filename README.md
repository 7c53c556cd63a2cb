# Cyphon core, modelled in Dafny

Cyphon is a security platform. It takes in documents from data feeds, logs and mail, routes them through
chutes to mungers that condense and store them, and raises alerts on the stored documents.
A watchdog raises an alert when one of its triggers matches, and its muzzle folds repeated alerts into one.
Actions and taggers then react to each alert. Analysts search the stored data with a small query language.

This project models the core of that pipeline and proves what the code promises about it:

- **Alerts** (`watchdogs.dfy`, `alerts.dfy`):
  - trigger selection by rank;
  - muzzle de-duplication, on an `AlertStore` class whose `ProcessAlert` is the atomic locked step;
  - the sequential form of the repeated-alert behaviour.
- **Ingestion routing** (`chutes.dfy`, `datachutes.dfy`, `mungers.dfy`, `mailservices.dfy`, `receiver.dfy`, `logs.dfy`):
  - chutes hand accepted documents to mungers;
  - mungers condense a document and then save it;
  - the mail and queue dispatchers try every enabled chute and fall back to the default munger.
- **Responders and taggers** (`actions.dfy`, `tags.dfy`).
- **The search query language** (`patterns.dfy`, `parameter_type.dfy`, `parameter_value.dfy`, `parameter.dfy`,
  `search_query.dfy`, `query.dfy`, `distillery_filter.dfy`, `search_results.dfy`):
  - token classification;
  - parameter values, with their errors in a fixed order;
  - query-level errors and buckets;
  - distillery filters, with their wildcard, intersection and union rules;
  - fieldsets and summed result counts.
- **The older `query` package** (`legacy_parameter_type.dfy`, `legacy_parameter_value.dfy`, `legacy_parameter.dfy`),
  with lemmas that compare it to the current classes.
- **Helpers** (`dbutils.dfy`, `followees.dfy`): `count_by_group`, `join_query`, legal-name formatting,
  and the account and alias uniqueness constraints.

Shared definitions live in `base.dfy`, `text.dfy` and `catalog.dfy`:

- `base.dfy`: `None` as `Option`, JSON documents, and the collaborator types.
- `text.dfy`: the Python `str` operations.
- `catalog.dfy`: the DataField, Warehouse, Collection and Distillery tables.

Some collaborators' code is not part of this model:

- data sieves;
- `get_dict_value`;
- condensers;
- `Distillery.save_data` and `find`;
- the clock.

Each enters as a function-typed parameter or as a plain value. The Django ORM tables are sequences and sets.
Time is whole minutes.

## Model

| member | source | states |
|---|---|---|
| Watchdogs.SelectWatchdogs | cyphon/watchdogs/models.py:54-67 | a watchdog is selected exactly when it is in the list, enabled, and has no categories or (when shared categories are allowed) shares one; a duplicate-free list stays duplicate-free |
| Watchdogs.FindRelevant | cyphon/watchdogs/models.py:50-67 | `find_relevant` returns exactly the enabled watchdogs with no categories, plus those sharing a category when the distillery has categories; no duplicates |
| Watchdogs.FirstFiring | cyphon/watchdogs/models.py:151-154 | the index found is that of a trigger whose sieve matches and no earlier trigger matches; none is found exactly when no trigger matches |
| Watchdogs.Inspect | cyphon/watchdogs/models.py:135-154 | `inspect` gives no level exactly when no trigger's sieve matches the data |
| Watchdogs.InspectPicksLowestRank | cyphon/watchdogs/models.py:151-154 | with triggers in ascending rank order, the level returned is that of a matching trigger whose rank is lowest among all matching triggers |
| Watchdogs.GetFields | cyphon/watchdogs/models.py:335-348 | `_get_fields` (split on commas, strip, drop empty pieces, keep order) computes `MatchingFields` of the muzzle |
| Watchdogs.CleanNext | cyphon/watchdogs/models.py:343-346 | one iteration of the `_get_fields` loop extends the cleaned list of the first `i` pieces to that of the first `i + 1` |
| Watchdogs.CleanFieldsAreClean | cyphon/watchdogs/models.py:343-346 | every kept field of comma-free pieces is non-empty, already stripped and has no comma |
| Watchdogs.MatchingFieldsAreClean | cyphon/watchdogs/models.py:340-348 | every field `_get_fields` returns is non-empty, stripped and comma-free |
| Watchdogs.OldestDuplicate | cyphon/watchdogs/models.py:359-393 | the position returned, if any, is one of the alerts scanned |
| Watchdogs.OldestDuplicateMeaning | cyphon/watchdogs/models.py:359-395 | the position found holds a duplicate (in the window, same level, distillery and alarm, equal values on every field), no duplicate is older by creation date then position, and none is found exactly when no alert is a duplicate |
| Watchdogs.FieldsMatch | cyphon/watchdogs/models.py:383-390 | the inner loop of `is_match` answers true exactly when every configured field has equal looked-up values in the new and old data |
| Watchdogs.AlertStore.constructor | cyphon/watchdogs/models.py:366 | an empty alert table |
| Watchdogs.AlertStore.MuzzleIsMatch | cyphon/watchdogs/models.py:374-395 | `Muzzle.is_match` answers true exactly when an oldest duplicate exists; then that alert's incidents rise by one and no other alert changes; otherwise the table is unchanged |
| Watchdogs.AlertStore.FindOldestDuplicate | cyphon/watchdogs/models.py:380-393 | the scan over the filtered alerts, oldest first, finds the oldest duplicate |
| Watchdogs.AlertStore.IsMuzzled | cyphon/watchdogs/models.py:103-111 | `_is_muzzled` is true exactly when an enabled muzzle finds a duplicate; the table changes only then, by the bump |
| Watchdogs.AlertStore.ProcessAlert | cyphon/watchdogs/models.py:125-133 | the atomic `_process_alert` either bumps the oldest duplicate and returns None, or appends the alert and returns it |
| Watchdogs.AlertStore.Process | cyphon/watchdogs/models.py:156-178 | `process` yields the table and result of `ProcessResult`: nothing when disabled or no trigger matches, else `_process_alert` of the new alert |
| Watchdogs.ProcessSavesAtMostOne | cyphon/watchdogs/models.py:113-178 | an alert is saved exactly when the watchdog is enabled, a trigger matches and the muzzle finds no duplicate; the saved alert is appended and carries the level, the watchdog as alarm, the distillery, the doc id and one incident; otherwise the table keeps its length, and a disabled watchdog or an unmatched document leaves it exactly as it was |
| Watchdogs.MuzzledDuplicateBumpsOldest | cyphon/watchdogs/models.py:103-133 | with an active muzzle and a duplicate, nothing is saved, only the oldest duplicate changes and its incidents rise by exactly one |
| Watchdogs.RepeatedDuplicatesFoldIntoOneAlert | cyphon/watchdogs/models.py:125-133 | processing the same matching document `k + 1` times at one instant leaves the earlier alerts and one new alert with `k + 1` incidents |
| Watchdogs.RepeatedDuplicatesReturnNone | cyphon/watchdogs/models.py:125-133 | after the first of those calls, every further call returns None |
| Watchdogs.RepeatedAlertFolds | cyphon/watchdogs/models.py:125-133 | the same alert processed `k + 1` times is stored once and then bumped `k` times |
| Watchdogs.StoredCopyIsOldestDuplicate | cyphon/watchdogs/models.py:382-393 | a stored copy of the alert after alerts holding no duplicate is the oldest duplicate |
| Watchdogs.UnmuzzledStoresEveryMatch | cyphon/watchdogs/models.py:103-133 | without an active muzzle, each of `n` matching documents appends one new alert and the earlier alerts stay as they were |
| Alerts.AddIncident | cyphon/watchdogs/models.py:392 | the duplicate's incident count goes up by one and nothing else about the stored alert changes |
| Watchdogs.FirstAlertStored | cyphon/watchdogs/models.py:125-133 | the first alert with no duplicate to fold into is stored with one incident |
| Watchdogs.ProcessTimesIsProcessAlertTimes | cyphon/watchdogs/models.py:135-178 | processing the same matching document `n` times is processing the alert it raises `n` times |
| Chutes.Str | cyphon/sifter/chutes/models.py:65-69 | `__str__` always ends in `-> ` and the munger's name; it is exactly that without a sieve, and with one it starts with the sieve's name and a space |
| Chutes.StrDeterminesSieve | cyphon/sifter/chutes/models.py:65-69 | two chutes with the same munger name and the same string both lack a sieve or have sieves of the same name |
| Chutes.Output | cyphon/sifter/chutes/models.py:90-99 | a chute saves at most one record, and one exactly when it is enabled and its sieve (if any) matches |
| Chutes.Process | cyphon/sifter/chutes/models.py:71-99 | `process` appends the munger's record and returns its id exactly when the chute is enabled and matches; otherwise it returns None and saves nothing |
| Chutes.ResultQueue.constructor | cyphon/sifter/chutes/models.py:101-111 | an empty queue |
| Chutes.ThreadProcess | cyphon/sifter/chutes/models.py:101-111 | `thread_process` puts one `True` on the queue exactly when `process` saved, and nothing otherwise |
| Chutes.FindEnabled | cyphon/sifter/chutes/models.py:34-37 | the enabled chutes, and only those |
| Chutes.OutputsOnePerAcceptingChute | cyphon/sifter/mailsifter/mailchutes/services.py:46-49 | trying every chute saves one record per accepting chute with no short-circuit; nothing is saved exactly when no chute accepts; each record is an accepting chute's munger output |
| Chutes.ProcessAll | cyphon/sifter/mailsifter/mailchutes/services.py:43-49 | the dispatch loop appends the outputs of all chutes in order, and `saved` holds exactly when some chute saved |
| Chutes.ProcessNext | cyphon/receiver.py:152-155 | one iteration of the dispatch loop appends the output of the next chute; `saved` turns true only when it saved |
| DataChutes.FindByEndpoint | cyphon/sifter/datasifter/datachutes/models.py:41-47 | `find_by_endpoint` returns exactly the enabled chutes of that endpoint |
| DataChutes.Process | cyphon/sifter/datasifter/datachutes/models.py:80-85 | `DataChute.process` is `Chute.process` with the endpoint's platform name as platform |
| DataChutes.BulkOutputPerDocument | cyphon/sifter/datasifter/datachutes/models.py:73-78 | `bulk_process` saves one record per accepted document, in list order, each the munger's output with the platform name |
| DataChutes.BulkProcess | cyphon/sifter/datasifter/datachutes/models.py:73-85 | the loop of `bulk_process` appends the output of `process` for each document in order |
| Mungers.SavedRecordIds | cyphon/sifter/mailsifter/mailmungers/models.py:55-81 | a data munger saves the condensed data under the caller's doc id, collection and platform; a mail munger under the message's `Message-ID` header, matched without regard to case, and the mail collection whatever it is given, condensing with the distillery's company |
| Mungers.Header | cyphon/sifter/mailsifter/mailmungers/models.py:80 | `data['Message-ID']` on a message is None exactly when no header name equals the name up to case, and otherwise the value of such a header; a name spelt one way only gives that header's value |
| Mungers.HeaderIgnoresCase | cyphon/sifter/mailsifter/mailchutes/services.py:67 | two names equal up to case look up the same header |
| MailServices.CatchOutput | cyphon/sifter/mailsifter/mailchutes/services.py:59-63 | on the MailMunger table, `catch_email` saves at most one record, none exactly when no mail munger has the default name, and that record carries the message's `Message-ID` header and the mail collection |
| Mungers.FindByName | cyphon/sifter/mailsifter/mailchutes/services.py:59-64 | the munger found has the name asked for; none is found exactly when no munger has that name |
| Mungers.RecordStore.constructor | django/sifter/mungers/models.py:54-58 | an empty store |
| Mungers.RecordStore.SaveData | django/sifter/mungers/models.py:54-58 | `save_data` appends exactly one record with the distillery, data and the three arguments unchanged, and returns its id |
| Mungers.Process | django/sifter/mungers/models.py:68-84 | `process` condenses first and saves the condensed document, appending exactly one record and returning `save_data`'s id |
| MailServices.CatchEmail | cyphon/sifter/mailsifter/mailchutes/services.py:54-67 | `catch_email` saves the email with the default mail munger, or when it is missing logs one error naming the munger and the message's `Message-ID` header, matched without regard to case, and saves nothing |
| MailServices.ProcessEmail | cyphon/sifter/mailsifter/mailchutes/services.py:37-51 | `process_email` tries every enabled chute and calls `catch_email` only when none saved and the flag is on; the only log entry is that of a missing default munger |
| MailServices.UnmatchedEmailFallsBack | cyphon/sifter/mailsifter/mailchutes/services.py:50-51 | when no chute accepts, the default munger saves just the email when the flag is on and the munger exists, and nothing is saved otherwise |
| MailServices.MatchedEmailSkipsDefault | cyphon/sifter/mailsifter/mailchutes/services.py:46-51 | when some chute accepts, the default munger does not run and one record is saved per accepting enabled chute |
| Receiver.GetConsumer | cyphon/receiver.py:63-83 | each of the four queue names gets its own handler, and only that name does |
| Receiver.UnknownQueueGetsNoHandler | cyphon/receiver.py:77-83 | any other queue type, None included, gets the string `'WATCHDOGS'` instead of a handler |
| Receiver.GetHandler | cyphon/receiver.py:77-83 | the evidently intended lookup: the handler of a known queue, and `call_watchdogs` for any other |
| Receiver.GetDefaultMunger | cyphon/receiver.py:227-235 | `get_default_munger` returns the munger named by the setting, or None after logging one error naming it |
| Receiver.Sift | cyphon/receiver.py:141-160 | runs every enabled chute with `data['@uuid']` and `data['collection']` (None when missing), then the fallback munger only when nothing was saved and the flag is on |
| Receiver.ProcessJson | cyphon/receiver.py:141-160 | `process_json` is that dispatch over the data chutes with the data fallback flag |
| Receiver.ProcessLog | cyphon/receiver.py:163-182 | `process_log` is that dispatch over the log chutes with the log fallback flag |
| Receiver.SiftFallback | cyphon/receiver.py:152-160 | when some chute accepts, one record per accepting chute and no fallback; when none does, only the fallback munger's record with the flag on and the munger found, and nothing otherwise |
| Receiver.RouteOf | cyphon/receiver.py:211-224 | an object with key `'message'` goes to `process_log`, any other object to `process_json`, and anything that does not decode to an object fails |
| Receiver.ProcessMsg | cyphon/receiver.py:199-224 | exactly one processor runs on a decoded object; a body that does not decode to an object is logged with the body, saves nothing and is not propagated |
| Receiver.ObjectsAreNeverDropped | cyphon/receiver.py:217-220 | every decoded object is routed, to the log processor exactly when it has key `'message'` |
| Actions.Action.constructor | cyphon/responder/actions/models.py:69-88 | an Action with its id, its display string and its description, which may be null |
| Actions.Action.Save | cyphon/responder/actions/models.py:96-103 | `save` fills a missing description with `str(self)` and keeps a present one |
| Actions.DescriptionOnSave | cyphon/responder/actions/models.py:101-102 | after `save` an Action always has a description: its own when it had one, `str(self)` otherwise |
| Actions.SaveIsIdempotent | cyphon/responder/actions/models.py:101-103 | saving again never changes the description the first save settled on, whatever `str(self)` has become |
| Actions.Responder.constructor | cyphon/responder/actions/models.py:124-126 | no request handler has run yet |
| Actions.Responder.RunHandler | cyphon/responder/actions/models.py:124-126 | `transport.run(alert)` records exactly one run of that action for that user and alert |
| Actions.GetDispatch | cyphon/responder/actions/models.py:105-126 | `get_dispatch` runs the handler exactly once for the requesting user and returns the Dispatch of that run |
| Actions.AutoRun | cyphon/responder/actions/models.py:194-222 | an AutoAction runs its action once, without a user, exactly when it has no sieve or its sieve accepts the alert's data, and does nothing otherwise |
| Actions.ProcessAutoAction | cyphon/responder/actions/models.py:207-222 | `AutoAction.process` adds that one run, or none |
| Actions.FindEnabled | cyphon/responder/actions/models.py:148 | the AutoActions `find_enabled` returns are exactly the enabled ones |
| Actions.Applicable | cyphon/responder/actions/models.py:194-199 | exactly the enabled AutoActions whose sieve is absent or accepts the alert's data |
| Actions.AutoRunsAreApplicable | cyphon/responder/actions/models.py:135-150 | processing an alert runs the action of each enabled, applicable AutoAction once, in table order, without a user, and no other |
| Actions.AutoRunsAppend | cyphon/responder/actions/models.py:148-150 | processing two lists in a row runs what each runs, in order |
| Actions.ProcessAutoActions | cyphon/responder/actions/models.py:135-150 | `AutoActionManager.process` adds the runs of every enabled AutoAction in order |
| Actions.ProcessNextAutoAction | cyphon/responder/actions/models.py:149-150 | one iteration of that loop adds the runs of the next enabled AutoAction |
| Tags.CreateRelation | cyphon/tags/models.py:156-159 | creating a TagRelation fails exactly when the object already has that tag, and otherwise appends it and keeps the relations unique per object and tag |
| Tags.CreateTag | cyphon/tags/models.py:62-67 | creating a Tag fails exactly when the name is taken, and otherwise appends it and keeps the names unique and lower-case |
| Tags.Clean | cyphon/tags/models.py:208-232 | `clean` raises its ValidationError, with its message, exactly when `create_tags` is set without `exact_match` |
| Tags.GetValue | cyphon/tags/models.py:234-238 | `_get_value` is the lower-cased field value when that value is a string, and None otherwise; the value is lower-case |
| Tags.TagStore.constructor | cyphon/tags/models.py:53-164 | empty tables, which satisfy the uniqueness constraints |
| Tags.TagStore.GetTag | cyphon/tags/models.py:240-259 | `_get_tag` returns an existing Tag without change, creates and returns a missing one only when `create_tags` is set, and otherwise returns None; relations never change and the constraints hold |
| Tags.TagStore.AssignTag | cyphon/tags/models.py:80-102 | `assign_tag` adds one relation without a user exactly when the object does not carry the tag yet, and changes nothing when the unique constraint refuses it |
| Tags.TagStore.TagExactMatch | cyphon/tags/models.py:261-265 | `_tag_exact_match` does nothing without a Tag, is refused on a duplicate relation, and otherwise tags the alert; the Tag table grows by the value exactly when it was created |
| Tags.TagStore.Process | cyphon/tags/models.py:283-301 | `process` has the outcome of the value and the tables before the call; nothing changes without a value, without a Tag, or for partial matching; a tagged alert gets one relation, and the Tag table gains its tag only when the tag was created; a duplicate relation changes neither table |
| Tags.ProcessTagsIff | cyphon/tags/models.py:296-299 | an alert is tagged exactly when its field holds a non-empty string, the tagger matches exactly, the lower-cased value names a Tag or tags are created, and the relation is new; the tag is the lower-cased value |
| Tags.CleanTaggerCreatesOnlyOnExactMatch | cyphon/tags/models.py:230-232 | a tagger that passes `clean` creates a Tag only when it matches exactly and creates tags |
| DbUtils.CountEqual | cyphon/utils/dbutils/dbutils.py:36-37 | `filter(column=value).count()` never exceeds the number of rows, and is zero exactly when no row holds the value in that column |
| DbUtils.CountByGroup | cyphon/utils/dbutils/dbutils.py:27-39 | `count_by_group` returns a map with the single key `column`, whose inner map has exactly one key per option value, counting the rows that hold it |
| DbUtils.ParseLogic | cyphon/utils/dbutils/dbutils.py:54 | `assert logic in ['AND', 'OR']` accepts those two strings and nothing else |
| DbUtils.FoldEval | cyphon/utils/dbutils/dbutils.py:58-64 | folding with `\|=` holds exactly when the start or some query holds; folding with `&=` exactly when the start and every query hold |
| DbUtils.JoinOfMeaning | cyphon/utils/dbutils/dbutils.py:50-66 | `join_query` raises AssertionError for any other logic before it pops, IndexError for an empty list, and otherwise holds exactly when some query (OR) or every query (AND) holds |
| DbUtils.QueryList.constructor | cyphon/utils/dbutils/dbutils.py:50 | the caller's list, as given |
| DbUtils.QueryList.Pop | cyphon/utils/dbutils/dbutils.py:56 | `pop` returns the last query and removes it, leaving the others in order |
| DbUtils.JoinQuery | cyphon/utils/dbutils/dbutils.py:50-66 | `join_query` returns that result; the caller's list loses its last query when the join succeeds, and is left as it was when it fails |
| Followees.NewLegalName | django/target/followees/models.py:72-74 | a LegalName without a middle name has the middle name `''`, and its full name is first and last one space apart |
| Followees.FullNameSplits | django/target/followees/models.py:84-87 | for one-word parts, the full name splits at spaces into first, middle and last, or first and last when there is no middle name |
| Followees.LastNameFirstNameSplits | django/target/followees/models.py:94-97 | for one-word parts, that form splits at spaces into `last,`, first and the middle name's initial, which is left out when there is no middle name |
| Followees.AddAccount | django/target/followees/models.py:119 | saving an account is refused exactly when that platform already has that user id, appends it otherwise, and keeps the pair unique |
| Followees.AddAlias | django/target/followees/models.py:143 | saving an alias is refused exactly when that account already has that handle in that role, appends it otherwise, and keeps the triple unique |
| Patterns.ParseField | cyphon/query/search/parameter_value.py:97-101 | a parse of `FIELD_REGEX` cuts the parameter into name, operator and value groups the pattern accepts, and the three put back together are the parameter |
| Patterns.ParseFieldComplete | cyphon/query/search/parameter_value.py:97-101 | any valid cut of the parameter is the one the parse finds: the groups are determined by the string |
| Patterns.ParseFieldIff | cyphon/query/search/parameter_value.py:184-202 | the parse succeeds exactly when the field pattern matches |
| Patterns.WordRunEnd | cyphon/query/search/parameter_value.py:98 | the greedy `[\w.]*` run starting at a position ends at the first character outside it |
| Patterns.WordRunEndAt | cyphon/query/search/parameter_value.py:98 | any position that closes such a run from the start is the end the greedy run finds |
| Patterns.FirstMatch | cyphon/query/search/parameter_type.py:66-70 | the table lookup gives no type exactly when no pattern of the table matches |
| Patterns.FirstMatchIsFirst | cyphon/query/search/parameter_type.py:66-68 | a type found is that of a matching pattern with no matching pattern before it |
| Patterns.FirstMatching | cyphon/query/search/parameter_type.py:66-70 | the loop over the table returns the first match's type, or None after the loop |
| ParameterType.GetParameterType | cyphon/query/search/parameter_type.py:52-70 | `get_parameter_type` returns the type of the first matching pattern, or None |
| ParameterType.ParameterTypeFirstMatch | cyphon/query/search/parameter_type.py:46-50 | each type is returned exactly when its pattern matches and no earlier pattern of KEYWORD, DISTILLERY, FIELD does; none exactly when nothing matches |
| ParameterType.SourceShadowsField | cyphon/query/search/parameter_type.py:48-49 | every `source=` string of the distillery pattern is classified as a distillery filter, even the many the field pattern also matches |
| ParameterValue.OperatorListsAgree | cyphon/query/search/parameter_value.py:75-108 | `FieldOperators.ALL` and `FieldValue.OPERATORS` hold the same six distinct operators, in a different order |
| ParameterValue.NewKeywordValue | cyphon/query/search/parameter_value.py:54-66 | `KeywordValue.__init__` keeps the stripped keyword and appends its one possible error |
| ParameterValue.KeywordValueErrors | cyphon/query/search/parameter_value.py:63-66 | a keyword value has no error or only EMPTY_VALUE, and has it exactly when the parameter holds nothing but double quotes; the keyword is the parameter with its outer quotes stripped |
| ParameterValue.QuotedKeyword | cyphon/query/search/parameter_value.py:63 | a phrase in double quotes gives the phrase itself, with no error |
| ParameterValue.NewFieldValue | cyphon/query/search/parameter_value.py:174-202 | `FieldValue.__init__` appends the errors of its checks in turn |
| ParameterValue.FieldValueErrors | cyphon/query/search/parameter_value.py:184-202 | a field value has only INVALID_PARAMETER exactly when the field pattern does not match; it is valid exactly when it parses, names an existing DataField, uses a listed operator and has a value; it has at most three errors |
| ParameterValue.AllThreeFieldErrors | cyphon/query/search/parameter_value.py:193-200 | for an unknown field, the bad operator `!` and no value, the three errors come in the order field, operator, value |
| ParameterValue.FieldName | cyphon/query/search/parameter_value.py:204-215 | `field_name` is None exactly when no DataField was found, and otherwise that field's name |
| ParameterValue.FieldType | cyphon/query/search/parameter_value.py:217-228 | `field_type` is None exactly when no DataField was found, and otherwise that field's type |
| ParameterValue.FieldPk | cyphon/query/search/parameter_value.py:230-241 | `field_pk` is None exactly when no DataField was found, and otherwise that field's key |
| ParameterValue.FoundFieldHasItsName | cyphon/query/search/parameter_value.py:189-191 | the DataField found is one of the catalogue's and has the parsed field name |
| Catalog.FindField | cyphon/query/search/parameter_value.py:156-172 | `_get_data_field` finds a DataField of exactly that name, and None exactly when there is none |
| Text.SplitJoin | cyphon/query/search/distillery_search_results.py:92 | splitting a join on a separator that no piece contains gives back the pieces |
| Text.StripChar | cyphon/query/search/parameter_value.py:63 | `strip('"')` leaves no quote at either end, keeps a string without quotes, and is empty exactly when the string held only quotes |
| Parameter.GetParameterValue | cyphon/query/search/parameter.py:63-92 | `_get_parameter_value` raises exactly for a type without a value class, which is only `distillery` |
| Parameter.NewSearchParameter | cyphon/query/search/parameter.py:94-116 | `SearchParameter.__init__` builds what `SearchParameterOf` describes, raising where it raises |
| Parameter.SearchParameterCases | cyphon/query/search/parameter.py:104-129 | construction raises MISSING_PARAMETER_CLASS for `distillery` exactly for distillery filters; an untyped string has only UNKNOWN_TYPE and no value; a keyword or field parameter reports exactly its value's errors |
| Parameter.SearchParameterShape | cyphon/query/search/parameter.py:104-107 | construction raises exactly for distillery filters, and a built parameter keeps its index, string and classified type |
| Parameter.KeywordParameterValidity | cyphon/query/search/parameter.py:131-138 | a keyword parameter is built, and is valid exactly when it holds some character besides a double quote |
| Parameter.KeywordSearchParameterOf | cyphon/query/search/parameter.py:152-169 | `KeywordSearchParameter` keeps its index and string and has the keyword and errors of the KeywordValue of the same string |
| Parameter.UnknownSearchParameterOf | cyphon/query/search/parameter.py:172-175 | `UnknownSearchParameter` keeps its index and string and always has exactly UNKNOWN_TYPE |
| Parameter.NewFieldSearchParameter | cyphon/query/search/parameter.py:221-274 | `FieldSearchParameter.__init__` parses, checks the operator and the value, and looks the DataField up only while still valid |
| Parameter.FieldParameterMatchesValue | cyphon/query/search/parameter.py:230-253 | a field parameter reports the FieldValue's errors, except that a missing field is checked only after the operator and value pass, so it is reported alone; both are valid for the same strings, and a valid one has its DataField |
| LegacyParameterType.GetParameterType | cyphon/query/search/query/parameter_type.py:58-76 | `get_parameter_type` returns the type of the first matching pattern of the legacy table, or None |
| LegacyParameterType.LegacyTypeFirstMatch | cyphon/query/search/query/parameter_type.py:52-56 | each type is returned exactly when its pattern matches and no earlier one of KEYWORD, DISTILLERY, FIELD does; none exactly when nothing matches |
| LegacyParameterType.LegacySourceNeedsValue | cyphon/query/search/query/parameter_type.py:54 | `source=v` is a distillery filter exactly when `v` is a non-empty run of `[\w.]`, optionally after one leading star |
| LegacyParameterType.LegacySourceValueChars | cyphon/query/search/query/parameter_type.py:54 | the value pattern `\*?[\w.]+` character by character |
| LegacyParameterType.IsValidType | cyphon/query/search/query/parameter_type.py:78-92 | `is_valid_type` holds exactly for the name of one of the three types |
| LegacyParameterType.ClassifiedTypesAreValid | cyphon/query/search/query/parameter_type.py:46 | every type the classifier returns passes `is_valid_type`, and no two types share a name |
| LegacyParameterType.LegacySourceIsSource | cyphon/query/search/query/parameter_type.py:54 | every legacy distillery filter is one for the current classifier too |
| LegacyParameterType.ClassifiersDisagreeOnlyOnSource | cyphon/query/search/query/parameter_type.py:52-56 | the legacy and current classifiers differ exactly on the `source=` strings only the current one accepts, with an empty value or a trailing star, and there only the current one says distillery |
| LegacyParameterType.EmptySourceIsLegacyField | cyphon/query/search/query/parameter_type.py:54-55 | `source=` is a field search for the legacy classifier and a distillery filter for the current one |
| LegacyParameterType.StarredSourceIsLegacyUnknown | cyphon/query/search/query/parameter_type.py:52-56 | `source=x*` has no legacy type and is a distillery filter for the current classifier |
| LegacyParameterType.NotFieldShape | cyphon/query/search/query/parameter_type.py:55 | a star in the value fits no value group of the field pattern |
| LegacyParameterValue.SearchQueryParameterValue.constructor | cyphon/query/search/query/parameter_value.py:33-34 | a new value has no errors |
| LegacyParameterValue.SearchQueryParameterValue.AddError | cyphon/query/search/query/parameter_value.py:46-54 | `_add_error` appends exactly that message, after which the value is invalid |
| LegacyParameterValue.SearchQueryParameterValue.Keyword | cyphon/query/search/query/parameter_value.py:64-76 | the keyword is the parameter with its outer double quotes stripped, EMPTY_VALUE is its only possible error, and the result agrees with the current KeywordValue |
| LegacyParameterValue.SearchQueryParameterValue.AddFieldDoesNotExistError | cyphon/query/search/query/parameter_value.py:199-212 | appends exactly the field-missing message naming the field |
| LegacyParameterValue.SearchQueryParameterValue.AddInvalidOperatorError | cyphon/query/search/query/parameter_value.py:214-225 | appends exactly the invalid-operator message naming the operator |
| LegacyParameterValue.SearchQueryParameterValue.Field | cyphon/query/search/query/parameter_value.py:157-185 | the legacy field value holds the same groups, DataField and errors, in the same order, as the current FieldValue of the same string |
| LegacyParameterValue.SearchQueryParameterValue.Name | cyphon/query/search/query/parameter_value.py:187-189 | `name` is the DataField's name, and reading it raises exactly when no DataField was found |
| LegacyParameterValue.SearchQueryParameterValue.Type | cyphon/query/search/query/parameter_value.py:191-193 | `type` is the DataField's type, and reading it raises exactly when no DataField was found |
| LegacyParameterValue.SearchQueryParameterValue.Pk | cyphon/query/search/query/parameter_value.py:195-197 | `pk` is the DataField's key, and reading it raises exactly when no DataField was found |
| LegacyParameterValue.FieldPropertiesDefined | cyphon/query/search/query/parameter_value.py:167-177 | the properties are defined exactly when the parameter parses and a DataField of the parsed name exists; that field is the catalogue's, and then no field-missing error was added |
| LegacyParameter.ValueErrorsOf | cyphon/query/search/query/parameter.py:59-70 | building the value raises exactly for a type without a value class |
| LegacyParameter.ParameterErrorsOf | cyphon/query/search/query/parameter.py:96-121 | building a legacy parameter raises exactly for a legacy distillery filter |
| LegacyParameter.MakeParameterValue | cyphon/query/search/query/parameter.py:59-94 | `_get_parameter_value` raises MISSING_PARAMETER_CLASS exactly for `distillery`, and otherwise builds a fresh keyword or field value with that value's errors |
| LegacyParameter.SearchQueryParameter.constructor | cyphon/query/search/query/parameter.py:96-121 | a parameter that is not a distillery filter keeps index, string and type; it has no value exactly when untyped, and its errors are UNKNOWN_TYPE or its value's |
| LegacyParameter.SearchQueryParameter.AttachValue | cyphon/query/search/query/parameter.py:114-121 | the value of the parameter's type is kept and its errors are copied once, when it is invalid, so the errors are the value's |
| LegacyParameter.SearchQueryParameter.AddError | cyphon/query/search/query/parameter.py:133-141 | `_add_error` appends exactly that message and changes nothing else |
| LegacyParameter.SearchQueryParameter.AddErrors | cyphon/query/search/query/parameter.py:143-154 | `_add_errors` appends the messages in their order and changes nothing else |
| LegacyParameter.NewSearchQueryParameter | cyphon/query/search/query/parameter.py:96-121 | `SearchQueryParameter(index, parameter)` raises exactly when its errors would be a raise, with that message, and is otherwise built with its index, string, type and errors |
| LegacyParameter.ParameterErrorsCases | cyphon/query/search/query/parameter.py:109-121 | the raise carries MISSING_PARAMETER_CLASS for `distillery`; an untyped string has only UNKNOWN_TYPE; a keyword or field parameter is valid exactly when its value is |
| LegacyParameter.AgreesWithSearchParameter | cyphon/query/search/query/parameter.py:96-131 | on strings both classifiers type alike, the legacy parameter raises exactly when the current one does and has the same errors |
| LegacyParameter.KeywordValidity | cyphon/query/search/query/parameter.py:123-131 | a legacy keyword parameter is valid exactly when it holds some character besides a double quote |
| Query.InvalidOf | cyphon/query/search/query.py:115-117 | the recorded parameters are exactly the invalid ones, so never more than there are parameters |
| Query.GetErrors | cyphon/query/search/query.py:101-122 | `_get_errors` in one pass over the parameters builds what `ErrorsOf` describes |
| Query.CheckParameter | cyphon/query/search/query.py:115-119 | one iteration records the next parameter when invalid and counts it when it is a distillery filter |
| Query.ErrorsOfMeaning | cyphon/query/search/query.py:101-122 | no parameters gives only EMPTY_SEARCH_QUERY; otherwise the query error MULTPIPLE_DISTILLERY_PARAMETERS is reported exactly when two parameters are distillery filters, at most one query error is reported, and the parameter errors are exactly the invalid parameters |
| Query.DistilleryCountTwo | cyphon/query/search/query.py:118-121 | the filter count exceeds one exactly when two distinct positions are filters, and is positive exactly when one is |
| Query.AsDict | cyphon/query/search/query.py:80-99 | `as_dict` has a `query` entry exactly when there are query errors and a `parameters` entry exactly when there are invalid parameters, one dictionary each with its string, type name, index and errors |
| Query.AsDictEmptyIff | cyphon/query/search/query.py:77-99 | the error dictionary is empty exactly when `has_errors()` is false |
| Query.ParametersFromMeaning | cyphon/query/search/query.py:156-175 | building the parameters raises exactly when some token is a distillery filter; otherwise parameter `i` is built from token `i` with index `i` |
| Query.ParametersFromRaises | cyphon/query/search/query.py:171-175 | building raises exactly when some token is a distillery filter |
| Query.RaisesOnFilter | cyphon/query/search/query.py:171-175 | building raises exactly when some token is typed `distillery` |
| Query.AnyOfMeaning | cyphon/query/search/query.py:171-175 | some token has the property exactly when some position holds one that does |
| Query.ParametersFromBuilt | cyphon/query/search/query.py:171-175 | built parameters are one per token, parameter `i` from token `i` with index `i` |
| Query.BuiltQueryHasNoFilterError | cyphon/query/search/query.py:309-328 | a query that can be built never reports MULTPIPLE_DISTILLERY_PARAMETERS, and is valid exactly when it has a token and all its parameters are valid |
| Query.BuiltParametersHaveNoFilter | cyphon/query/search/query.py:171-175 | built parameters contain no distillery filter |
| Query.ErrorsWithoutFilters | cyphon/query/search/query.py:109-122 | without distillery filters there is no filter error, and no error exactly when there is a parameter and all are valid |
| Query.EmptyQuotesQuery | cyphon/query/search/query.py:309-318 | the query `""` has one keyword parameter at index 0, with EMPTY_VALUE, and reports it as invalid |
| Query.KeywordFieldsets | cyphon/query/search/query.py:227-255 | `_get_keyword_fieldsets` gives one `regex` fieldset per text field of the distillery, whose value is all the keywords joined by a vertical bar; when no keyword holds a vertical bar, each value splits back into exactly the keywords, in order |
| Query.FieldFieldsets | cyphon/query/search/query.py:257-280 | the fieldsets are exactly those of the field values whose DataField is on the distillery's bottle or label, never more than there are values |
| Query.FieldFieldsetsAsWrittenRaises | cyphon/query/search/query.py:196 | as written, building field fieldsets raises TypeError exactly when there is a field value |
| Query.GetFieldsetsOrder | cyphon/query/search/query.py:282-307 | `_get_fieldsets` puts the keyword fieldsets first, when there are keywords, and the field fieldsets after them; a field that was not found is never on a distillery |
| SearchQueries.UnknownIsInvalid | cyphon/query/search/search_query.py:31-48 | a token of no type becomes an UnknownParameter, which is never valid |
| SearchQueries.KeptStep | cyphon/query/search/search_query.py:315-322 | a token of an ignored type leaves the state alone and any other goes through its setter, which together is the state over one more token |
| SearchQueries.Positions | cyphon/query/search/search_query.py:315-319 | the positions kept for a type all lie among the tokens seen so far |
| SearchQueries.PositionsMembership | cyphon/query/search/search_query.py:315-319 | a position is listed for a type exactly when its token has that type and the type is not ignored |
| SearchQueries.PositionsIncreasing | cyphon/query/search/search_query.py:315 | the positions of a type come in query order |
| SearchQueries.InvalidPositions | cyphon/query/search/search_query.py:366-367 | the positions of invalid parameters all lie among the tokens seen so far |
| SearchQueries.InvalidPositionsMeaning | cyphon/query/search/search_query.py:356-367 | a position is recorded as invalid exactly when its token is kept and the parameter created for it is invalid, and those positions come in query order |
| SearchQueries.InvalidPositionsMembers | cyphon/query/search/search_query.py:366-367 | the membership half of that |
| SearchQueries.InvalidPositionsIncreasing | cyphon/query/search/search_query.py:366-367 | the order half of that |
| SearchQueries.InvalidPositionsStep | cyphon/query/search/search_query.py:366-367 | one more token adds its position to the invalid ones exactly when it is kept and invalid |
| SearchQueries.PositionsStep | cyphon/query/search/search_query.py:315-319 | one more token adds its position to those of a type exactly when it has that type and is kept |
| SearchQueries.SetterEffect | cyphon/query/search/search_query.py:369-427 | each setter adds the parameter to its own bucket only, records it when invalid, keeps the first distillery filter and turns each later one into MULTIPLE_DISTILLERY_FILTERS |
| SearchQueries.AddAllStep | cyphon/query/search/search_query.py:315-322 | the effect of one more token on every attribute, and nothing for an ignored one |
| SearchQueries.FilterStep | cyphon/query/search/search_query.py:406-413 | one more token sets the filter when it is the first kept filter, and adds the multiple-filters message when one is already set |
| SearchQueries.InvalidStep | cyphon/query/search/search_query.py:366-367 | one more token adds its parameter to the invalid ones exactly when it is kept and invalid |
| SearchQueries.LaterMessages | cyphon/query/search/search_query.py:410-411 | every filter after the first has exactly one message |
| SearchQueries.LaterMessagesAt | cyphon/query/search/search_query.py:352-353 | the message of the k-th filter names that filter's string and index |
| SearchQueries.LaterMessagesAppend | cyphon/query/search/search_query.py:410-411 | one more filter adds its message exactly when a filter came before it |
| SearchQueries.BucketAppend | cyphon/query/search/search_query.py:381 | appending a parameter and its position keeps a bucket described by its positions |
| SearchQueries.KeywordsDescribed | cyphon/query/search/search_query.py:369-381 | the keyword parameters are those built from the kept keyword tokens, in order, each with its position as index |
| SearchQueries.FieldsDescribed | cyphon/query/search/search_query.py:383-395 | the field parameters are those built from the kept field tokens, in order, each with its position as index |
| SearchQueries.UnknownsDescribed | cyphon/query/search/search_query.py:415-427 | the unknown parameters are those built from the kept untyped tokens, in order, each with its position as index |
| SearchQueries.FirstFilterDescribed | cyphon/query/search/search_query.py:410-413 | the filter kept is the one built from the first kept distillery token, and there is none without one |
| SearchQueries.FilterErrorsDescribed | cyphon/query/search/search_query.py:410-411 | the errors are one MULTIPLE_DISTILLERY_FILTERS per later distillery token, in order |
| SearchQueries.FilterErrorsStep | cyphon/query/search/search_query.py:410-411 | that description survives one more token |
| SearchQueries.FilterKept | cyphon/query/search/search_query.py:410-413 | a filter is set exactly when some kept token is a distillery filter |
| SearchQueries.FilterErrorsGrow | cyphon/query/search/search_query.py:410-411 | adding a filter position extends the messages by one exactly when a filter was already set |
| SearchQueries.FilterDescribed | cyphon/query/search/search_query.py:397-413 | the filter slot and the query errors together are described by the distillery positions |
| SearchQueries.InvalidDescribed | cyphon/query/search/search_query.py:356-367 | the invalid parameters are those created for the kept invalid tokens, in query order |
| SearchQueries.AddAllDescribed | cyphon/query/search/search_query.py:304-322 | every kept token lands in the bucket of its type with its position as index, only the first filter is kept and each later one adds its message, the invalid parameters are listed in order, and ignored tokens appear nowhere |
| SearchQueries.EmptyQuery | cyphon/query/search/search_query.py:146-148 | an empty query has only EMPTY_SEARCH_QUERY and no parameters |
| SearchQueries.UnparsedQuery | cyphon/query/search/search_query.py:150-154 | a query with no tokens has only PARSING_ERROR naming it and no parameters |
| SearchQueries.QueryDescribed | cyphon/query/search/search_query.py:123-156 | a parsed query holds exactly that description of its tokens |
| SearchQueries.AddAllValidity | cyphon/query/search/search_query.py:200-207 | processing the tokens leaves no error exactly when at most one kept token is a distillery filter and every kept parameter is valid |
| SearchQueries.QueryValidity | cyphon/query/search/search_query.py:200-207 | `is_valid` holds exactly when the query is non-empty, has tokens, has at most one kept distillery filter, and every kept parameter is valid |
| SearchQueries.Keywords | cyphon/query/search/search_query.py:172-184 | `keywords` is None exactly when there is no keyword parameter, and otherwise their keywords in order |
| SearchQueries.QueryKeywords | cyphon/query/search/search_query.py:172-184 | the keywords are the kept keyword tokens with their quotes stripped, in query order, or None without one |
| SearchQueries.Distilleries | cyphon/query/search/search_query.py:158-170 | `distilleries` is None without a filter and the filter's distilleries with one |
| SearchQueries.QueryDistilleries | cyphon/query/search/search_query.py:158-170 | the distilleries are those of the first kept distillery token, or None without one |
| SearchQueries.QueryFilterErrors | cyphon/query/search/search_query.py:94-98 | each kept distillery token after the first adds one MULTIPLE_DISTILLERY_FILTERS naming its string and index, in order, and no other error is added |
| SearchQueries.SearchQuery.constructor | cyphon/query/search/search_query.py:123-156 | the new object holds the attributes `SearchQueryOf` describes |
| SearchQueries.SearchQuery.AddError | cyphon/query/search/search_query.py:333-340 | `_add_error` appends the message and changes nothing else |
| SearchQueries.SearchQuery.AddSearchParameters | cyphon/query/search/search_query.py:304-322 | the loop leaves the state that every token's step, in order, builds |
| SearchQueries.SearchQuery.AddSearchParameter | cyphon/query/search/search_query.py:315-322 | one iteration skips a token of an ignored type and otherwise calls its setter |
| SearchQueries.SearchQuery.CallParameterSetter | cyphon/query/search/search_query.py:131-138 | the setter table sends each type, None included, to its own setter |
| SearchQueries.SearchQuery.CheckParameterValidity | cyphon/query/search/search_query.py:356-367 | an invalid parameter is appended to the invalid list, and nothing else changes |
| SearchQueries.SearchQuery.AddKeywordParameter | cyphon/query/search/search_query.py:369-381 | the keyword parameter is created, checked and appended |
| SearchQueries.SearchQuery.AddFieldParameter | cyphon/query/search/search_query.py:383-395 | the field parameter is created, checked and appended |
| SearchQueries.SearchQuery.SetDistilleryFilterParameter | cyphon/query/search/search_query.py:397-413 | the filter is created and checked even when one is set; it is then kept if it is the first, and otherwise only its message is added |
| SearchQueries.SearchQuery.AddUnknownParameter | cyphon/query/search/search_query.py:415-427 | the unknown parameter is created, checked and appended |
| DistilleryFilter.FilterGroupsIff | cyphon/query/search/distillery_filter_parameter.py:50-52 | FILTER_GROUPS_REGEX gives the groups `(w, c)` exactly when the filter is `w.c` with each side a word or the wildcard (both directions) |
| DistilleryFilter.ResolveCollections | cyphon/query/search/distillery_filter_parameter.py:316-325 | the collections searched are the intersection of the warehouse's and the named collections when both are found, and whichever one is non-empty otherwise |
| DistilleryFilter.DistilleriesIn | cyphon/query/search/distillery_filter_parameter.py:330-334 | a distillery is selected exactly when it is in the table and its collection is among the resolved ones |
| DistilleryFilter.NewDistilleryFilter | cyphon/query/search/distillery_filter_parameter.py:105-135 | the constructor, with its two early returns, builds exactly the parameter the step functions describe |
| DistilleryFilter.FilterEarlyExits | cyphon/query/search/distillery_filter_parameter.py:161-189 | a string that is not `@source=` followed by filter characters has only INVALID_PARAMETER and no distilleries; `@source=` alone has only FILTER_VALUE_IS_EMPTY |
| DistilleryFilter.FilterSplits | cyphon/query/search/distillery_filter_parameter.py:125-135 | `@source=w.c` keeps the filter `w.c`, the warehouse `w`, the collection `c` and a list of distilleries |
| DistilleryFilter.FilterTextOf | cyphon/query/search/distillery_filter_parameter.py:177-189 | FILTER_REGEX takes `@source=w.c` with filter group `w.c` |
| DistilleryFilter.FilterResolution | cyphon/query/search/distillery_filter_parameter.py:291-340 | CANNOT_FIND_WAREHOUSE then CANNOT_FIND_COLLECTION for names that match nothing, with no distilleries; otherwise the distilleries of the resolved collections, and NO_MATCHING_DISTILLERIES exactly when there are none |
| DistilleryFilter.WildcardResolution | cyphon/query/search/distillery_filter_parameter.py:215-289 | a wildcard warehouse leaves the collections found by name; a wildcard collection leaves the collections of the warehouse |
| DistilleryFilter.DoubleWildcardMatchesNothing | cyphon/query/search/distillery_filter_parameter.py:316-338 | `@source=*.*` resolves to no collection, so it always ends in NO_MATCHING_DISTILLERIES with no distilleries |
| DistillerySearch.FieldFieldsets | cyphon/query/search/distillery_search_results.py:54-73 | one fieldset per field parameter related to the distillery, and only those |
| DistillerySearch.KeywordFieldsets | cyphon/query/search/distillery_search_results.py:75-118 | no keywords give no fieldsets; otherwise one `regex` fieldset per text field, in order, whose value is the keywords joined by a vertical bar; when no keyword holds a vertical bar, each value splits back into exactly the keywords, in order |
| DistillerySearch.GetFieldsetsOrder | cyphon/query/search/distillery_search_results.py:120-141 | field fieldsets come first and keyword fieldsets after; there are none exactly when no field parameter is related and there are no keywords or no text fields |
| DistillerySearch.NoFieldsetsNoSearch | cyphon/query/search/distillery_search_results.py:177-178 | without fieldsets the engine is never asked: no engine query, no results, the starting count |
| DistillerySearch.OutcomeCount | cyphon/query/search/distillery_search_results.py:160-188 | the count grows exactly when the engine returns a non-zero count, and then by that count with its results; otherwise it stays and there are no results |
| DistillerySearch.DistillerySearchResults.constructor | cyphon/query/search/distillery_search_results.py:160-188 | the new results object keeps its distillery and holds the outcome of the search |
| DistillerySearch.SumZero | cyphon/query/search/distillery_search_results.py:227 | a sum of non-negative counts is non-negative, and zero exactly when every count is |
| DistillerySearch.Counts | cyphon/query/search/distillery_search_results.py:227 | one count per result, in order |
| DistillerySearch.GetResultCount | cyphon/query/search/distillery_search_results.py:215-227 | the loop over the results totals their counts |
| DistillerySearch.ListDistilleries | cyphon/query/search/distillery_search_results.py:258-260 | the query's distilleries when it has some, every distillery otherwise |
| DistillerySearch.GetDistillerySearchResults | cyphon/query/search/distillery_search_results.py:229-248 | one results object per distillery, in order, when the query has keywords or field parameters, and none otherwise |
| DistillerySearch.ListCounts | cyphon/query/search/distillery_search_results.py:242-248 | one count per distillery when the query searches, none otherwise |
| DistillerySearch.DistillerySearchResultsList.constructor | cyphon/query/search/distillery_search_results.py:250-264 | the list's distilleries, its results one fresh `DistillerySearchResults` per distillery holding that distillery's fieldsets, results and count, and its count the total of theirs |
| DistillerySearch.DistillerySearchResultsList.Shown | cyphon/query/search/distillery_search_results.py:283-299 | the results serialised are exactly those with a non-zero count |
| DistillerySearch.ShownOf | cyphon/query/search/distillery_search_results.py:296-299 | exactly the results with a non-zero count, and no more of them than there are results |
| DistillerySearch.ShownOfInOrder | cyphon/query/search/distillery_search_results.py:296-299 | the results shown are a subsequence of the results: they sit at increasing positions, and every result with a non-zero count is among them |
| DistillerySearch.ListWithoutSearch | cyphon/query/search/distillery_search_results.py:242-248 | a query with no keyword and no field parameter searches no distillery and counts zero |
| DistillerySearch.ListCountZero | cyphon/query/search/distillery_search_results.py:250-264 | the total starting from zero is non-negative, and zero exactly when every distillery counted zero |
| DistillerySearch.ShownMatchesCount | cyphon/query/search/distillery_search_results.py:264-299 | the total count is zero exactly when no result is serialised |

## Left out

- Concurrency: the table lock and `transaction.atomic` around `_process_alert` are modelled as one atomic method, `Watchdogs.AlertStore.ProcessAlert`. The threaded test of repeated alerts becomes the sequential lemma `Watchdogs.RepeatedDuplicatesFoldIntoOneAlert`.
- Time: `timezone.now` and `convert_time_to_whole_minutes` are not modelled. The current time and the muzzle's interval in minutes are given values.
- `DataSieve.is_match`, `get_dict_value`, `Condenser.process`, `Distillery.save_data`, `Distillery.find` and the request handlers of actions are external code. They are function-typed parameters.
- `Alert.add_incident` is modelled only by its effect on the stored alert, `Alerts.AddIncident`.
- Regular expressions: `PARAMETERS_REGEX` tokenising is not modelled; a query's token list is given. The anchored patterns are written out as predicates, with `\w` as ASCII letters, digits and underscore, and `$` as the end of the string.
- Django ORM lookups become sequences and sets. `Catalog.FindField` and `Mungers.FindByName` take DataField names and munger names to be unique; on a duplicate name `objects.get` raises `MultipleObjectsReturned`, while the model returns the first. Ties in `order_by('created_date')` are broken by store position, which the database leaves open.
- Partial-match tagging (`_tag_partial_match`, with `nltk` tokenisation) is not modelled. It passes Tag objects where strings are expected. A tagger set to partial matching does nothing in the model.
- `TagRelation.tag_date` (the clock) is not modelled.
- Transport: the RabbitMQ consumers, multiprocessing and JSON decoding of `cyphon/receiver.py` are not modelled. A message body is given as its decoded document, or as the failure to decode it.
- Settings: the fallback flags and the default munger names are parameters. The code reads `DEFAULT_DATA_CHUTE_ENABLED` and `DEFAULT_LOG_CHUTE_ENABLED`, while the settings files define `DEFAULT_MUNGER_ENABLED`. The model passes the flags the code reads.
- Mungers.SavedRecordIds: a saved record's id is taken to be truthy. An `if result:` on a falsy id is not modelled.
- Mungers.Header: a message is a document keyed by header name, so the order of its headers is not modelled. When several headers spell the name in different cases, the code takes the first in the message and the model takes the least name in code-point order. Header names are ASCII, so the ASCII lower-casing agrees with Python's.
- ParameterValue.FieldName, ParameterValue.FieldType and ParameterValue.FieldPk: these require a parsed value. On an unparsed `FieldValue`, `__init__` never sets `self.field`, so `field_name`, `field_type` and `field_pk` raise AttributeError there. The model does not give that error. Every caller in the model, `Query.FieldFieldsets` on a built query, passes parsed values.
- SearchQueries.Distilleries: a distillery filter whose constructor returned early never sets `distilleries`. Its base class `SearchParameter` is in `search_parameter.py`, which is not part of this model. The model assumes the attribute reads as None; if the base class does not define it, the code raises AttributeError instead.
- Tags.GetValue: lower-casing is ASCII-only. Python's `str.lower()` lowers all of Unicode and can change a string's length, e.g. `'İ'`. A non-ASCII field value can therefore name a different Tag in the model than in the code.
- Receiver.ProcessMsg: the chutes, sieves, condensers and `save_data` are total in the model. In the code, `except Exception` also catches an error raised while they run. Records saved before that error stay saved, and the remaining chutes are skipped. That partial run is not modelled.
- Query.KeywordFieldsets and DistillerySearch.KeywordFieldsets: the split-back property needs keywords without a vertical bar. A quoted keyword may hold one (`^".*"$`), and then the joined value does not separate the keywords.
- `json_encodeable` is not modelled: it only round-trips a value through the JSON library.
- Followees: `find_accounts`, `add_associate` and `get_associates` are ORM queries and are not modelled. `blank=true` at `django/target/followees/models.py:42` would fail when the module is imported. Only `LegalName` and the uniqueness constraints are modelled.
- `SearchQuery._add_parameter_error` in `search_query.py` is never called and is not modelled.
- `search_query.py` imports `SearchParameterType`, `SearchParameter`, `KeywordSearchParameter` and `FieldSearchParameter` from modules that are not part of this model. Stand-ins:
  - the classifier of `parameter_type.py` (`ParameterType.ParameterTypeOf`);
  - the parameter classes of `parameter.py`;
  - `DistilleryFilter.DistilleryFilterOf`.
  The bucket lemmas hold for any classifier. With this classifier, every `source=` distillery token fails the filter's `@source=` pattern.
- `SearchQuery.get_results` and `_sort_parameters_by_type` in `query.py` are not modelled. `_sort_parameters_by_type` indexes an empty dict and raises `KeyError`.
- `cyphon/query/search/query/query.py` is not part of this model: it is a defective copy of `query.py`.
- `get_parameter_info`, `as_dict` of the search results, serialisers and URL reversal build presentation dictionaries. They are not modelled. `Query.AsDict` models the error dictionary only.
- The NO_MATCHING_DISTILLERIES message keeps its `{}` placeholder, because the code appends it without `format`.
- Floating point numbers in JSON documents are not modelled.

## Findings

| source | as written | input that shows it | evidently intended | confidence | as-written member | corrected member |
|---|---|---|---|---|---|---|
| cyphon/receiver.py:83 | `consumers.get(queue_type, 'WATCHDOGS')` returns the string `'WATCHDOGS'` for an unknown queue type | `get_consumer('OTHER')` or `get_consumer()` | the default is the watchdog handler `call_watchdogs` | not executed | Receiver.UnknownQueueGetsNoHandler | Receiver.GetHandler |
| cyphon/query/search/query.py:196 | `bottle.fields.all().exists(pk=field_id)` passes a keyword argument to `QuerySet.exists`, which takes none, so it raises `TypeError` | any query with a field parameter, e.g. `ip=1.2.3.4`, against any distillery | test whether the bottle or label has a DataField with that key | not executed | Query.FieldFieldsetsAsWrittenRaises | Query.FieldFieldsets |
