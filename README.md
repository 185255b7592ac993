# Marketo ↔ Pipedrive synchronisation, modelled in Dafny

The system keeps two CRMs in step. Marketo holds leads, companies,
opportunities and opportunity roles. Pipedrive holds persons, organizations,
deals, users, stages, pipelines, activities and notes. A task loads one
entity from one side and finds or creates its counterpart on the other. It
then walks a mapping table, field by field. Each entry of the table names the
source fields, an optional combination mode (`join` or `choose`) and optional
pre- and post-adapters. The counterpart is saved only when some field
changed, and each side then records the other's id.

The model covers three generations of this engine:

- the current one: sync/tasks.py, sync/functions.py, sync/mappings.py,
  sync/adapters.py, and the entity layers sync/pipedrive/entities.py and
  sync/marketo/entities.py;
- the resource layers the intermediate version used:
  sync/pipedrive/resources.py, pipedrive/resources.py and
  marketo/resources.py;
- the first two engines: marketo_pipedrive_sync.py with mappings.py and
  adapters.py, and marketo_sync.py.

Python values are one datatype (`Values.Value`). Python exceptions are an
`Outcome` (`Ok(value)` or `Raised(exception)`). An entity whose attributes
the source updates in place is a class with a `map` of attributes, and its
methods state the whole new state. The two CRMs seen by a task are one
value `Tasks.Db` of stored records, wrapped by the class `Tasks.Crm` whose
methods perform the sync tasks. Each task is also a function, and the properties
are proved about those functions.

Modules, one per file:

| file | module | models |
|---|---|---|
| values.dfy | Values | Python truthiness, `==`, `str()`, `int()`, `split()`, `strip()`, `' '.join` |
| dates.dfy | Dates | the three `strptime` layouts of the date adapters and `strftime('%Y-%m-%d')` |
| adapters.dfy | Adapters | sync/adapters.py |
| registry.dfy | Registry | the adapters the tables name, and their application |
| mappings.dfy | Mappings | sync/mappings.py |
| engine.dfy | Engine | `update_field` and `get_new_attr` of sync/tasks.py |
| helpers.dfy | MarketoHelpers, Pluralize | sync/marketo/helpers.py, marketo/helpers.py |
| snake_case.dfy | SnakeCase | sync/pipedrive/helpers.py and pipedrive/helpers.py |
| memo.dfy | Memo | the `memoize` decorator of sync/common/util.py |
| pipedrive_entity.dfy | PipedriveEntity | sync/pipedrive/entities.py |
| marketo_entity.dfy | MarketoEntity | sync/marketo/entities.py |
| tasks.dfy | Tasks | the sync tasks of sync/tasks.py and sync/functions.py |
| pipedrive_resources.dfy | PipedriveResources | sync/pipedrive/resources.py |
| earliest_pipedrive.dfy | EarliestPipedrive | pipedrive/resources.py |
| marketo_resources.dfy | MarketoResources | marketo/resources.py |
| root_adapters.dfy | RootAdapters | adapters.py |
| root_mappings.dfy | RootMappings | mappings.py |
| legacy_engine.dfy | LegacyEngine | marketo_pipedrive_sync.py and marketo_sync.py |

## Model

| member | source | states |
|---|---|---|
| Values.PyInt | sync/tasks.py:175 | `int(x)`: an integer converts to itself; only integers, booleans and text can convert, anything else is a TypeError; which texts convert is stated by the three lemmas below |
| Values.PyIntOfIntToString | sync/tasks.py:175 | the text of an integer's digits, with its sign, converts back to that integer |
| Values.PyIntPadded | sync/tasks.py:175 | whitespace before and after such a text is ignored |
| Values.PyIntNoDigit | sync/tasks.py:175 | a text without a single digit does not convert |
| Values.PyStr | marketo_pipedrive_sync.py:269 | `str()` raises UnicodeEncodeError exactly on a text holding a character outside ASCII; otherwise it gives the value's text, which is ASCII |
| Values.JoinAscii | marketo_pipedrive_sync.py:289-292 | texts `str()` produced, joined with spaces, stay ASCII, so `str()` of the joined text never raises |
| Values.IntToStringInjective | sync/adapters.py:82 | `str()` of two different integers gives two different texts |
| Values.Words | sync/adapters.py:101 | `split()` yields only non-empty tokens without whitespace |
| Values.WordsCoverNonSpaces | sync/adapters.py:101 | the tokens of `split()`, put back together, are exactly the text's non-whitespace characters in order |
| Values.WordsAppend | sync/adapters.py:101 | a text followed by a part that starts with whitespace splits into the tokens of each part |
| Values.Strip | sync/adapters.py:55 | `strip()` never lengthens a text, and what it returns starts and ends with a non-space |
| Values.StripIsFramed | sync/adapters.py:55 | what `strip()` returns stands in the text with only whitespace before and after it |
| Values.StripFramed | sync/adapters.py:55 | conversely, a part with only whitespace around it that starts and ends with a non-space is what `strip()` returns |
| Values.WordsOfJoin | sync/tasks.py:475 | splitting a space-joined list of words gives the words back |
| Dates.Checked | sync/adapters.py:173 | a year, month and day form a date exactly when `datetime` accepts them (month lengths, leap years) |
| Dates.ParseDay | sync/adapters.py:176 | the `%Y-%m-%d` layout only ever yields valid calendar dates |
| Dates.ParseSpaced | sync/adapters.py:173 | the `%Y-%m-%d %H:%M:%S` layout only ever yields valid calendar dates |
| Dates.ParseIsoZ | sync/adapters.py:73 | the `%Y-%m-%dT%H:%M:%SZ` layout only ever yields valid calendar dates |
| Dates.ParseEither | sync/adapters.py:172-178 | every date the fallback yields is a valid calendar date |
| Dates.FallbackLayoutsExclusive | sync/adapters.py:172-178 | no text is read by both layouts, so the order they are tried in does not matter: the result is the bare date's reading when there is one, the time stamp's otherwise, and nothing exactly when both refuse |
| Dates.FormatDate | sync/adapters.py:173 | `strftime('%Y-%m-%d')` prints ten characters: four digits, dash, two digits, dash, two digits |
| Dates.FormatDateFields | sync/adapters.py:173 | the printed year, month and day read back as the date's own fields |
| Dates.FormatThenParseDay | sync/adapters.py:176 | a printed date parses back to the same date under `%Y-%m-%d` |
| Dates.FormatThenParseSpaced | sync/adapters.py:173 | a printed date, whitespace and a valid clock parse back to the date under `%Y-%m-%d %H:%M:%S` |
| Dates.FormatNotSpaced | sync/adapters.py:173-176 | a bare printed date is refused by the time-stamp layout, so the fallback is the one that reads it |
| Dates.FormatThenParseIsoZ | sync/adapters.py:73 | a printed date with `T`, a clock and `Z` parses back to the date |
| Dates.LayoutsDisjoint | sync/adapters.py:69-179 | a printed date followed by `T`, a clock and `Z` is refused by both layouts of `datetime_to_date2`, and a spaced time stamp by the `T…Z` layout |
| Adapters.SplitNameGetFirst | sync/adapters.py:98-103 | a falsy name is returned as is; a name of two or more words gives all words but the last, single-spaced; otherwise the name itself |
| Adapters.SplitNameGetLast | sync/adapters.py:106-111 | a falsy name is returned as is; a name with words gives its last word; otherwise the name itself |
| Adapters.NameRoundTrip | sync/adapters.py:98-111 | first name, a space and last name rebuild any name of two or more single-spaced words |
| Adapters.SingleWordName | sync/adapters.py:98-111 | a one-word name is both its own first and last name |
| Adapters.IsClosed | sync/adapters.py:148-152 | a boolean, true exactly for the statuses `lost` and `won` |
| Adapters.IsWon | sync/adapters.py:155-159 | a boolean, true exactly for the status `won` |
| Adapters.WonIsClosed | sync/adapters.py:148-159 | a won deal is closed; an open deal is neither closed nor won |
| Adapters.ToggleBoolean | sync/adapters.py:144-145 | a boolean that is the negation of the value's truthiness |
| Adapters.ToggleTwice | sync/adapters.py:144-145 | toggling twice gives the value's truthiness back |
| Adapters.NumberToString | sync/adapters.py:79-83 | None exactly for a falsy value, otherwise the value's `str()` |
| Adapters.NumberToStringInjective | sync/adapters.py:79-83 | two different non-zero integers give two different texts |
| Adapters.CallType | sync/adapters.py:86-87 | always the text `call` |
| Adapters.CustomSubject | sync/adapters.py:90-91 | `Follow up with ` followed by the value's `str()` |
| Adapters.StageToName | sync/adapters.py:182-186 | None for no stage, otherwise the stage's name |
| Adapters.UserToEmail | sync/adapters.py:123-127 | None for no user or the bot user, otherwise the user's email |
| Adapters.UserToFirstName | sync/adapters.py:130-134 | None for no user or the bot user, otherwise the first name split from the user's name |
| Adapters.UserToLastName | sync/adapters.py:137-141 | None for no user or the bot user, otherwise the last name split from the user's name |
| Adapters.OwnerFields | sync/adapters.py:123-141 | the owner fields written to a lead are all None for the bot user, and otherwise rebuild the real user's name |
| Adapters.UserNameToUserIdOrBigBot | sync/adapters.py:53-58 | always truthy: the bot id for a blank name, the id found when the search finds one |
| Adapters.UserNameToUserId | sync/adapters.py:61-66 | None for a blank name, otherwise whatever the user search answers |
| Adapters.UserIdAdaptersAgree | sync/adapters.py:53-66 | the two user-id adapters agree whenever the search finds someone |
| Adapters.CountryIsoToName | sync/adapters.py:40-50 | a falsy value is returned as is; a known code gives its country's name, else a known name gives its canonical name, else the value is returned unchanged |
| Adapters.DatetimeToDate | sync/adapters.py:69-76 | None for a falsy value; a date exactly when the text is a `T…Z` time stamp from 1900 on, and then that date printed |
| Adapters.DatetimeToDate2 | sync/adapters.py:169-179 | None for a falsy value; a date exactly when the text is a spaced time stamp or a bare date from 1900 on, and then that date printed |
| Adapters.DatetimeToQuarter | sync/adapters.py:189-199 | None, or a quarter from 1 to 4, defined exactly when one of the two layouts reads the text |
| Adapters.DatetimeToYear | sync/adapters.py:202-212 | None, or a year from 1 to 9999, defined exactly when one of the two layouts reads the text |
| Adapters.DatetimeToDate2Idempotent | sync/adapters.py:169-179 | reformatting a date the adapter printed gives the same date |
| Adapters.QuarterAndYearMatchDate | sync/adapters.py:169-212 | the year and quarter adapters read the same date that `datetime_to_date2` prints |
| Adapters.DateLayoutsDiffer | sync/adapters.py:69-179 | `datetime_to_date` accepts only the `T…Z` layout and `datetime_to_date2` only the spaced one |
| Mappings.Lookup | sync/mappings.py:13-187 | a table has an entry for a target exactly when one of its pairs names it, and the entry found is that pair's |
| Mappings.PersonToLead | sync/mappings.py:13-66 | the table is well formed: distinct targets, every entry names its fields, and an entry of several fields has a mode |
| Mappings.OrganizationToCompany | sync/mappings.py:68-83 | the table is well formed |
| Mappings.LeadToPerson | sync/mappings.py:87-128 | the table is well formed |
| Mappings.CompanyToOrganization | sync/mappings.py:130-141 | the table is well formed |
| Mappings.DealToOpportunity | sync/mappings.py:143-187 | the table is well formed |
| Mappings.LookupAt | sync/mappings.py:13-187 | with distinct targets, looking up an entry's target finds that entry |
| Mappings.CrossReferencesMapped | sync/mappings.py:48-50 | `marketoid` copies the lead's id and `pipedriveId` copies the person's id |
| Mappings.NamesFromOneField | sync/mappings.py:88-95 | the lead's first and last names both come from the person's `name` |
| Mappings.CloseFieldsShareSource | sync/mappings.py:169-186 | close date, quarter and year choose from the same two deal fields |
| Mappings.OwnerReadsNoField | sync/mappings.py:79-82 | the organization's owner reads no field and only runs its post-adapter |
| Engine.CollectFields | sync/tasks.py:450-460 | one value per source field, in order, each through the pre-adapter |
| Engine.FirstTruthy | sync/tasks.py:480 | None exactly when no value is truthy; otherwise a truthy value from the list |
| Engine.NoFieldsResolve | sync/tasks.py:447-487 | an entry that gathers nothing resolves to the post-adapter applied to None |
| Engine.FirstValueByDefault | sync/tasks.py:468-470 | one value is kept as is, and several values without a mode keep the first |
| Engine.AdapterPlacement | sync/tasks.py:450-487 | the pre-adapter runs on each field on its own and the post-adapter once on the combined value |
| Engine.WordsOfJoinAll | sync/tasks.py:475 | the words of a space-joined list of texts are the words of each text in turn |
| Engine.StripBlankIffNoWords | sync/tasks.py:476 | a text is blank after `strip()` exactly when it has no words |
| Engine.JoinMode | sync/tasks.py:472-476 | `join` gives None exactly when the truthy values have no words, otherwise a text with exactly their words in order |
| Engine.JoinTwoNames | sync/tasks.py:472-476 | two names join as `first last`; a missing one leaves the other; two missing give None |
| Engine.ChooseMode | sync/tasks.py:477-480 | `choose` gives the first truthy value in field order, None when all are falsy |
| Engine.GetNewAttr | sync/tasks.py:447-487 | the loop computes exactly the resolved value of the entry |
| Engine.Update | sync/tasks.py:427-444 | a change exactly when the target lacks the field, or the new value differs and is neither None nor empty; only then is the field written |
| Engine.NeverBlanked | sync/tasks.py:435 | a field the target has is never overwritten with None or the empty text |
| Engine.UpdateIdempotent | sync/tasks.py:427-444 | writing the same value a second time changes nothing |
| Engine.UpdateAgrees | sync/tasks.py:427-444 | the decision depends only on the target's own value for the field |
| Engine.ApplyAllFrame | sync/tasks.py:30-32 | a field no entry targets keeps its value, or its absence |
| Engine.ApplyAllTarget | sync/tasks.py:30-32 | with distinct targets, each target ends with that entry's own update of the original record |
| Engine.ApplyAllTargetLast | sync/tasks.py:30-32 | the last entry's target ends with that entry's own update of the original record |
| Engine.ApplyAllFlag | sync/tasks.py:30-32 | with distinct targets, the run reports a change exactly when some entry changes its field |
| Engine.NoChangeNoWrite | sync/tasks.py:30-34 | a run that reports no change leaves the target record as it was |
| Engine.SecondRunChangesNothing | sync/tasks.py:30-32 | running a table again over its own result reports no change |
| Engine.SingleFieldResolve | sync/tasks.py:447-487 | an entry with one field and no mode resolves to the post-adapted field value |
| Engine.ChangedByEntry | sync/tasks.py:30-32 | one entry that changes its field makes the whole run report a change |
| Engine.UnchangedWhenAllBlank | sync/tasks.py:30-32 | when the target has every field and every entry resolves to nothing, the run reports no change |
| Engine.Entity.constructor | sync/tasks.py:18 | the target record starts with the attributes given |
| Engine.Entity.UpdateField | sync/tasks.py:427-444 | the new attributes and the flag are exactly `Update` of the old attributes and the resolved value |
| Engine.Entity.ApplyTable | sync/tasks.py:30-32 | the loop over a table leaves the attributes and the flag that `ApplyAll` defines |
| Engine.ApplyAllStep | sync/tasks.py:30-32 | one more entry of the loop: the attributes after `update_field` on it, and the flag set when it or an earlier one changed something |
| MarketoHelpers.ComputeExternalId | sync/marketo/helpers.py:16-24 | as long as the prefix, the entity name and the id's text together, plus the two dashes |
| MarketoHelpers.IdPart | sync/marketo/helpers.py:16-24 | the id text read out of an external id has the length left after prefix, name and dashes |
| MarketoHelpers.IdPartOfExternalId | sync/marketo/helpers.py:16-24 | reading the id back out of a computed external id gives the id's text |
| MarketoHelpers.ExternalIdInjective | sync/marketo/helpers.py:16-24 | for one prefix and name, different integer ids give different external ids |
| MarketoHelpers.ExternalIdExamples | sync/marketo/helpers.py:16-24 | `pd-deal-12` and `pd-organization-7` with the default prefix |
| MarketoHelpers.IsMarketoGuid | sync/marketo/helpers.py:4-13 | a match has at least 36 characters and a dash at position 8 |
| MarketoHelpers.GuidExamples | sync/marketo/helpers.py:5-11 | the two examples of the documentation |
| MarketoHelpers.GuidThenAnything | sync/marketo/helpers.py:12-13 | only the start is anchored: anything may follow a GUID |
| MarketoHelpers.UpperCaseRejected | sync/marketo/helpers.py:12 | an upper-case letter outside the dash positions makes the match fail |
| MarketoHelpers.NumericIdNotGuid | sync/marketo/helpers.py:12-13 | a numeric Marketo id is never taken for a GUID |
| Pluralize.SimplePluralize | marketo/helpers.py:1-14 | ends with `s`; a word ending in `y` keeps all but the `y` and grows by two, any other word keeps its text and grows by one |
| Pluralize.PluralizeExamples | marketo/helpers.py:4-7 | `leads` and `opportunities` |
| Pluralize.PluralizeInjective | marketo/helpers.py:1-14 | two words with one plural are the same word, unless one ends in `ie` |
| Pluralize.PluralizeCollision | marketo/helpers.py:1-14 | `pie` and `py` share the plural `pies` |
| SnakeCase.Convert | sync/pipedrive/helpers.py:20-24 | each character becomes at most one snake-case character |
| SnakeCase.ToSnakeCase | sync/pipedrive/helpers.py:5-24 | never longer than the label, and made only of lower-case letters, digits, `_` and `-` |
| SnakeCase.ToSnakeCaseAppend | sync/pipedrive/helpers.py:23-24 | the conversion works character by character |
| SnakeCase.SnakeCaseFixed | sync/pipedrive/helpers.py:5-24 | a name already in snake case is unchanged |
| SnakeCase.ToSnakeCaseIdempotent | sync/pipedrive/helpers.py:5-24 | converting twice gives what converting once gives |
| SnakeCase.NothingDropped | sync/pipedrive/helpers.py:20-24 | a label of letters, digits, spaces and punctuation keeps its length |
| SnakeCase.Dropped | sync/pipedrive/helpers.py:21-24 | a character outside both classes is dropped |
| SnakeCase.ExampleMyLabel | sync/pipedrive/helpers.py:8-9 | `My Label` gives `my_label` |
| SnakeCase.ExampleStateCountry | sync/pipedrive/helpers.py:10-11 | `State/Country` gives `state_country` |
| SnakeCase.StatePart | sync/pipedrive/helpers.py:10-11 | `State` gives `state` |
| SnakeCase.CountryPart | sync/pipedrive/helpers.py:10-11 | `/Country` gives `_country` |
| SnakeCase.ExampleDash | sync/pipedrive/helpers.py:12-13 | `my-label` gives `my_label` |
| SnakeCase.ExampleDateSql | sync/pipedrive/helpers.py:14-15 | `Date SQL` gives `date_sql` |
| Memo.Invoke | sync/common/util.py:7-15 | a stored result is returned without calling; otherwise the call's result is returned, and it is stored afterwards |
| Memo.InvokeKeepsOthers | sync/common/util.py:7-15 | every other cache entry is left as it was |
| Memo.SecondCallCached | sync/common/util.py:7-15 | a second call with the same arguments returns the first call's result, whatever the function does then |
| Memo.Cached.constructor | sync/common/util.py:8 | the cache starts empty, with no call made |
| Memo.Cached.Call | sync/common/util.py:7-15 | the new cache, the calls made and the result are those of `Invoke` |
| PipedriveEntity.Defaults | sync/pipedrive/entities.py:273-318 | every default is a non-empty text |
| PipedriveEntity.OptionMap | sync/pipedrive/entities.py:146-149 | an option id is mapped exactly when the field lists it |
| PipedriveEntity.NullsAt | sync/pipedrive/entities.py:135-151 | the keys set to None in turn all hold None, and no attribute is lost |
| PipedriveEntity.InitialAttrs | sync/pipedrive/entities.py:135-151 | every field's written key holds None, and no attribute is lost |
| PipedriveEntity.KeysOfRegistration | sync/pipedrive/entities.py:135-143 | every field is registered, and every registered name leads to the key of a field registered under it |
| PipedriveEntity.LastRegistrationWins | sync/pipedrive/entities.py:135-143 | a name that no later field registers leads to that field's key |
| PipedriveEntity.SharedNamesUseKeys | sync/pipedrive/entities.py:138-143 | two fields whose names snake-case alike are both registered under their keys |
| PipedriveEntity.UniqueNameLeadsToKey | sync/pipedrive/entities.py:138-141 | a field with a name of its own is reached by that name |
| PipedriveEntity.InitialAttrsKeeps | sync/pipedrive/entities.py:151 | an attribute no field writes keeps its value |
| PipedriveEntity.NullsAtKeeps | sync/pipedrive/entities.py:151 | a key never set to None keeps its value |
| PipedriveEntity.KeysStartNull | sync/pipedrive/entities.py:151 | when no registered name is another field's key, each field's own key starts as None |
| PipedriveEntity.PrimaryValue | sync/pipedrive/entities.py:81-84 | the value of the last element marked primary, or the default given when none is |
| PipedriveEntity.PrimaryValueStep | sync/pipedrive/entities.py:82-84 | one more element of the list: its `value` when it is marked primary, the value so far otherwise |
| PipedriveEntity.LastPrimaryInit | sync/pipedrive/entities.py:81-84 | an unmarked last element changes neither which element is the last marked one nor whether any is |
| PipedriveEntity.GetDataValue | sync/pipedrive/entities.py:77-85 | the loop computes exactly the flattened value |
| PipedriveEntity.FlattenScalar | sync/pipedrive/entities.py:77-85 | a value that is neither a dict nor a list is kept |
| PipedriveEntity.Decode | sync/pipedrive/entities.py:55-59 | a changed value is the label of some option; decoding never raises AttributeError |
| PipedriveEntity.InitAttrs | sync/pipedrive/entities.py:190-191 | every pair's key is written and no attribute is lost |
| PipedriveEntity.InitLastWins | sync/pipedrive/entities.py:190-191 | each key holds the flattened value of the last pair written there |
| PipedriveEntity.FirstExactMatch | sync/pipedrive/entities.py:207-212 | None exactly when no result has the name; otherwise the id of a result that has it |
| PipedriveEntity.FoundByName | sync/pipedrive/entities.py:193-222 | nothing for a name shorter than two characters once stripped; a single result is taken; several give the first exact match or nothing |
| PipedriveEntity.FindByName | sync/pipedrive/entities.py:193-222 | the loop computes exactly `FoundByName` |
| PipedriveEntity.FirstMatchAt | sync/pipedrive/entities.py:208-212 | the scan stops at the first result named exactly |
| PipedriveEntity.FoundByFilter | sync/pipedrive/entities.py:224-233 | the `id` filter answers its value; other filters answer only for organizations, a single hit of a Marketo-id search giving its id |
| PipedriveEntity.AmbiguousFilterFindsNothing | sync/pipedrive/entities.py:302-307 | a Marketo-id search that finds several organizations, or none, finds nothing |
| PipedriveEntity.Entity.constructor | sync/pipedrive/entities.py:19 | an entity starts with `id` set to None and nothing registered |
| PipedriveEntity.Entity.SetAttr | sync/pipedrive/entities.py:70-75 | the flattened value is written under the key a registered name leads to |
| PipedriveEntity.Entity.LoadFields | sync/pipedrive/entities.py:126-153 | the registrations, types and options of the schema; InitializationError for an empty schema |
| PipedriveEntity.Entity.RegisterField | sync/pipedrive/entities.py:135-151 | one more field registered and its written key set to None |
| PipedriveEntity.Entity.LoadOptions | sync/pipedrive/entities.py:146-149 | the field's options replaced by the listed labels, nothing else changed |
| PipedriveEntity.Entity.LoadFixedFields | sync/pipedrive/entities.py:339-378 | each fixed field registered under itself and set to None |
| PipedriveEntity.Entity.GetAttr | sync/pipedrive/entities.py:31-64 | an attribute held is returned as is; AttributeError exactly for a name neither held nor registered to another key |
| PipedriveEntity.Entity.Payload | sync/pipedrive/entities.py:91-108 | defined exactly when every registered key reads; then one value per registered key |
| PipedriveEntity.Entity.EntityData | sync/pipedrive/entities.py:97-108 | the loop computes exactly `Payload` |
| PipedriveEntity.Entity.Init | sync/pipedrive/entities.py:185-191 | the attributes after every pair of the object is assigned in turn |
| PipedriveEntity.Entity.Load | sync/pipedrive/entities.py:155-183 | the attributes `LoadedAttrs` defines for the id and the lookup field |
| PipedriveEntity.Entity.FindTarget | sync/pipedrive/entities.py:161-167 | the id fetched is the one `Target` defines for the lookup field |
| PipedriveEntity.Entity.Start | sync/pipedrive/entities.py:23-29 | without an id nothing changes; with one the entity is loaded, or only the id field stored |
| PipedriveEntity.Entity.Reload | sync/pipedrive/entities.py:235-239 | the entity reloaded by its own id |
| PipedriveEntity.Entity.ReadPayload | sync/pipedrive/entities.py:97-108 | the payload, or the exception of the first key that does not read |
| PipedriveEntity.Entity.Save | sync/pipedrive/entities.py:241-257 | the payload is sent; a non-empty answer is loaded into the entity, an empty one raises SavingError |
| PipedriveEntity.Entity.Delete | sync/pipedrive/entities.py:259-269 | the id Pipedrive answers with; SavingError when it answers nothing, KeyError when the answer has no id |
| PipedriveEntity.New | sync/pipedrive/entities.py:16-29 | raises exactly when the schema is empty (not for stages or pipelines); otherwise the fields registered, then the entity loaded |
| PipedriveEntity.Target | sync/pipedrive/entities.py:161-167 | the `id` field and the empty field take the value itself as the id |
| PipedriveEntity.InactiveNotLoaded | sync/pipedrive/entities.py:169-174 | nothing is loaded for no id, nor from an inactive object |
| PipedriveEntity.LoadedById | sync/pipedrive/entities.py:169-174 | loading by id writes every field the active object holds |
| PipedriveEntity.OptionDecoded | sync/pipedrive/entities.py:54-57 | an option field read by name gives the label of the stored option id |
| PipedriveEntity.NonIntegerOptionKept | sync/pipedrive/entities.py:56-59 | a stored value that is no integer literal is read back unchanged |
| PipedriveEntity.PayloadFlattens | sync/pipedrive/entities.py:101-107 | a blank value takes the class default, an entity or dict its id, anything else is sent as is |
| PipedriveEntity.PersonAlwaysNamed | sync/pipedrive/entities.py:273-277 | a person is never sent without a name |
| MarketoEntity.EntityName | sync/marketo/entities.py:191-194 | a role, and only a role, lives under `opportunities/` |
| MarketoEntity.FieldsToUpdate | sync/marketo/entities.py:143-220 | a lead sends its company id exactly when it has one, and its website and country otherwise; the defaults of email, isPrimary and the opportunity name |
| MarketoEntity.Assigned | sync/marketo/entities.py:95-96 | every key of the object is written and no attribute is lost |
| MarketoEntity.AssignedLastWins | sync/marketo/entities.py:95-96 | each key holds the value of its last pair |
| MarketoEntity.Initialized | sync/marketo/entities.py:90-98 | `id` copies the id field; AttributeError exactly when the id field is not there |
| MarketoEntity.PayloadOf | sync/marketo/entities.py:37-50 | a lead without `externalCompanyId` raises; otherwise exactly the writable fields of the schema are sent |
| MarketoEntity.DefaultsNeverNull | sync/marketo/entities.py:47-48 | a lead's email, a role's isPrimary and an opportunity's name are never sent as None |
| MarketoEntity.CompanyFieldsExclusive | sync/marketo/entities.py:163-168 | a lead never sends its company id with its website or country |
| MarketoEntity.SetValuesSent | sync/marketo/entities.py:46-49 | a value that is set is sent as it is |
| MarketoEntity.Entity.constructor | sync/marketo/entities.py:16 | an entity starts with `id` set to None |
| MarketoEntity.Entity.LoadFields | sync/marketo/entities.py:60-72 | the schema's field names, each a None attribute, and its id field; InitializationError when Marketo describes nothing |
| MarketoEntity.Entity.RegisterNames | sync/marketo/entities.py:68-70 | each name recorded in order and its attribute set to None, the id field unchanged |
| MarketoEntity.Entity.Init | sync/marketo/entities.py:90-98 | the attributes of `Initialized`, or AttributeError when the id field is missing |
| MarketoEntity.Entity.Load | sync/marketo/entities.py:74-88 | the object returned for the id is loaded, when there is one |
| MarketoEntity.Entity.Start | sync/marketo/entities.py:20-31 | without an id nothing changes; otherwise the entity is loaded, through its own id field when asked by `id`, or only the field given is set |
| MarketoEntity.Entity.Save | sync/marketo/entities.py:106-115 | the payload is sent; the answer is loaded, an empty one raises SavingError, and one without the id field raises AttributeError after its pairs were set |
| MarketoEntity.Entity.DeletionRequest | sync/marketo/entities.py:117-125 | the deletion is asked by the field given when the entity has it, by `id` otherwise |
| MarketoEntity.New | sync/marketo/entities.py:13-31 | raises when Marketo describes nothing; otherwise the entity has the described fields |
| MarketoEntity.IdFollowsIdField | sync/marketo/entities.py:97-98 | after `init` the `id` of an entity with its own id field is the last value given to that field |
| Tasks.Blank | sync/pipedrive/entities.py:126-153 | a fresh entity has `id` and every schema field, all None |
| Tasks.Locate | sync/pipedrive/entities.py:155-169 | a falsy value finds nothing; by `id`, a record is looked up exactly when `int()` converts the value |
| Tasks.Open | sync/pipedrive/entities.py:155-174 | the id is None exactly when nothing loadable is found, and then the entity is blank |
| Tasks.Save | sync/pipedrive/entities.py:241-251 | the saved record holds every field sent and its id; no other record changes; valid stores stay valid |
| Tasks.SaveCreates | sync/pipedrive/entities.py:241-251 | a record without an id gets a fresh id that no stored record had |
| Tasks.SaveUpdates | sync/pipedrive/entities.py:241-251 | a stored record is updated in place, and no id is handed out |
| Tasks.IntLinkStale | sync/tasks.py:175 | no write exactly when the link is set and converts to the id; an exception exactly when it is set and does not convert |
| Tasks.RoleOf | sync/tasks.py:357-364 | a new role for the contact's lead and the opportunity, with a truthy role, primary when the champion is the contact |
| Tasks.PersonTaskResult | sync/tasks.py:9-61 | the person task fails exactly when the lead is not found, and is skipped exactly when no field changes |
| Tasks.NewPersonChanged | sync/tasks.py:30-32 | a new person always changes, because the lead's id is written to `marketoid` |
| Tasks.NewPersonCreated | sync/tasks.py:20-38 | a person that is not found is created under a fresh id |
| Tasks.PersonLinkWritten | sync/tasks.py:40-44 | after a sync that was not skipped the lead's `pipedriveId` is the person's id |
| Tasks.LinkWriteBack | sync/tasks.py:40-43 | after the write-back the stored link field equals the id just saved |
| Tasks.LeadTaskResult | sync/tasks.py:144-196 | the lead task reports an error exactly when the person is not found; otherwise it syncs or crashes, is skipped exactly when nothing changes, and writes nothing then |
| Tasks.LeadLinkWritten | sync/tasks.py:175-179 | after a sync that was not skipped the person's `marketoid` reads as the lead's id |
| Tasks.IntLinkWriteBack | sync/tasks.py:175-178 | after the write-back the stored link field converts to the id just saved |
| Tasks.BadLinkRaises | sync/tasks.py:175 | a `marketoid` that is no integer literal makes the sync task crash, unless nothing changed |
| Tasks.OrganizationTaskResult | sync/tasks.py:84-141 | the organization task fails exactly when the company is not found, and is skipped, writing nothing, exactly when no field changes |
| Tasks.OrganizationSearchOrder | sync/tasks.py:94-106 | the organization found by Marketo id wins over the one found by name, which wins over the one found by domain |
| Tasks.CompanyTableKeepsKeys | sync/mappings.py:130-141 | the company table never writes `id` or `externalCompanyId` |
| Tasks.BlankOrganizationChangesNothing | sync/tasks.py:234-236 | an organization with no name, industry or people count changes nothing in a company that has those fields |
| Tasks.NewCompanySkippedAsWritten | sync/tasks.py:222-238 | as written, a new company with blank values is skipped and never created |
| Tasks.NewCompanyCreated | sync/tasks.py:222-238 | with the flag kept, a company that is not found is always created under a fresh id, with the organization's external id |
| Tasks.DeleteLeadMarks | sync/tasks.py:271-297 | the delete task fails exactly when the lead is not found; otherwise the lead is saved marked `toDelete` |
| Tasks.DeletedPersonNotLoaded | sync/tasks.py:64-81 | a deleted person stays stored but is no longer loaded |
| Tasks.OpportunityFiltered | sync/tasks.py:312-316 | a missing deal is an error, a deal outside the filtered pipeline is not enabled, and neither writes anything |
| Tasks.NewOpportunityChanged | sync/tasks.py:334-338 | an opportunity whose `isClosed` is unset always changes, and keeps its id and external id |
| Tasks.NewOpportunityCreated | sync/tasks.py:323-338 | an opportunity that is not found is created with its computed external id |
| Tasks.RoleSentForKnownContact | sync/tasks.py:357-369 | a role is saved exactly when the deal's contact has a Marketo id |
| Tasks.ActivityCreatedWhenEnabled | sync/tasks.py:388-424 | an activity is created for a lead with an owner and a linked person, and skipped otherwise |
| Tasks.EarlyOrganizationSearchOrder | sync/functions.py:83-89 | the id read out of the external id is tried first, then the name, then the domain |
| Tasks.EarlyOrganizationTaskResult | sync/functions.py:71-116 | the organization task fails exactly when the company is not found, and is skipped, writing nothing, exactly when no field changes |
| Tasks.EarlyNewCompanyCreated | sync/functions.py:183-199 | a company that is not found is always created, with the organization's external id |
| Tasks.EarlyCompanyTaskWritesCompaniesOnly | sync/functions.py:165-215 | the company task writes no record other than companies |
| Tasks.EarlyDeleteLeadCreatesMissing | sync/functions.py:218-234 | a lead that is not found is still saved, as a new lead marked `toDelete`, and reported ready for deletion; a lead found is handled as the later task does |
| Tasks.KeptFlagSameAsReset | sync/functions.py:259-278 | keeping the flag of a new opportunity gives the same result as resetting it |
| Tasks.EarlyMissingRoleRaises | sync/functions.py:281-300 | as written, a deal with no role raises AttributeError after the opportunity was saved |
| Tasks.EarlyMissingRoleOmitted | sync/functions.py:281-300 | as intended, such a deal returns the opportunity's result with no role |
| Tasks.Crm.constructor | sync/tasks.py:18 | the CRMs hold the records and the next id given |
| Tasks.Crm.SaveEntity | sync/pipedrive/entities.py:241-251 | the new state and the id are those of `Save` |
| Tasks.Crm.SyncPerson | sync/tasks.py:9-61 | the new state and the result are those of `PersonTask` |
| Tasks.Crm.DeletePerson | sync/tasks.py:64-81 | the new state and the result are those of `DeletePersonTask` |
| Tasks.Crm.SyncOrganization | sync/tasks.py:84-141 | the new state and the result are those of `OrganizationTask` |
| Tasks.Crm.FindOrganizationOf | sync/tasks.py:94-105 | the organization found is the one `FindOrganization` defines: by Marketo id, then name, then email domain |
| Tasks.Crm.SyncLead | sync/tasks.py:144-196 | the new state and the result are those of `LeadTask` |
| Tasks.Crm.FindCompanyOf | sync/tasks.py:209-221 | the company found is the one `FindCompany` defines |
| Tasks.Crm.SyncCompany | sync/tasks.py:199-268 | the new state and the result are those of `CompanyTaskAsWritten`, the task as written (see ## Findings) |
| Tasks.MapEntity | sync/tasks.py:233-236 | the record and the flag after the loop over a table are those `ApplyAll` defines |
| Tasks.Crm.SaveCompany | sync/tasks.py:238-249 | the company is saved; the organization's `marketoid` is written when stale, and a link that does not convert crashes the sync task |
| Tasks.CompanySaved | sync/tasks.py:238-249 | the saved company stays as saved after the organization is linked back; the task reports it unless reading the link raised, and then nothing but the company is written |
| Tasks.Crm.DeleteLead | sync/tasks.py:271-297 | the new state and the result are those of `DeleteLeadTask` |
| Tasks.Crm.SaveOpportunity | sync/tasks.py:318-347 | the new state, status, id and record are those of `UpsertOpportunity` |
| Tasks.Crm.SyncOpportunity | sync/tasks.py:300-385 | the new state and the result are those of `OpportunityTask` |
| Tasks.Crm.SyncOrganizationEarly | sync/functions.py:71-116 | the new state and the result are those of `EarlyOrganizationTask` |
| Tasks.Crm.FindOrganizationEarlyOf | sync/functions.py:82-89 | the organization found is the one `FindOrganizationEarly` defines: by the id part of the external id, then name, then email domain |
| Tasks.Crm.SyncCompanyEarly | sync/functions.py:165-215 | the new state and the result are those of `EarlyCompanyTask` |
| Tasks.Crm.FindCompanyEarlyOf | sync/functions.py:176-181 | the company found is the one `FindCompanyEarly` defines: by external id, then by name |
| Tasks.Crm.DeleteLeadEarly | sync/functions.py:218-234 | the new state and the result are those of `EarlyDeleteLeadTask` |
| Tasks.Crm.SyncOpportunityEarly | sync/functions.py:237-313 | the new state and the result are those of `EarlyOpportunityTaskAsWritten`, the task as written, which raises AttributeError after saving the opportunity when the deal has no role (see ## Findings) |
| Tasks.Crm.CreateActivity | sync/tasks.py:388-424 | the new state and the result are those of `ActivityTask` |
| PipedriveResources.AsEntity | sync/pipedrive/resources.py:192-312 | each resource class is one of the entity classes, never an activity or a note |
| PipedriveResources.LastNamedWins | sync/pipedrive/resources.py:105-124 | a field whose name no later field shares is reached by that name |
| PipedriveResources.EarlierDuplicateShadowed | sync/pipedrive/resources.py:105-124 | of two fields named alike the earlier is unreachable by name, where the entity layer registers both by key |
| PipedriveResources.InitialAttrs | sync/pipedrive/resources.py:105-124 | every field's written key holds None, and no attribute is lost |
| PipedriveResources.FoundByName | sync/pipedrive/resources.py:152-165 | AttributeError exactly for a truthy name that is no text; an id is found exactly when the search returns a single result, and it is that result's |
| PipedriveResources.UniqueHitFoundByBoth | sync/pipedrive/resources.py:152-165 | where both layers search, a single result is found by both |
| PipedriveResources.ExactMatchAmongSeveralMissed | sync/pipedrive/resources.py:152-165 | several results find nothing, even with an exact match the entity layer would take |
| PipedriveResources.ShortNameSearched | sync/pipedrive/resources.py:152-165 | a one-character name is searched here and never in the entity layer |
| PipedriveResources.FoundByFilter | sync/pipedrive/resources.py:220-236 | only an organization answers, and only for a text email domain; a domain that is no text raises |
| PipedriveResources.OtherFieldsTakenAsId | sync/pipedrive/resources.py:132-133 | any other lookup field takes the value as the id, even a Marketo id the entity layer would resolve |
| PipedriveResources.UnknownDomainTakenAsId | sync/pipedrive/resources.py:132-133 | a domain no single organization has falls back to the domain itself as the id |
| PipedriveResources.InactiveNotLoaded | sync/pipedrive/resources.py:138-139 | a deleted resource is not loaded |
| PipedriveResources.Resource.constructor | sync/pipedrive/resources.py:13-20 | a resource starts with no attribute, not even `id` |
| PipedriveResources.Resource.SetAttr | sync/pipedrive/resources.py:59-64 | the value is written, unflattened, under the key a registered name leads to |
| PipedriveResources.Resource.LoadFields | sync/pipedrive/resources.py:105-124 | the registrations, types and options of the schema; InitializationError for an empty schema |
| PipedriveResources.Resource.LoadOptions | sync/pipedrive/resources.py:117-121 | the field's options replaced by the listed labels, nothing else changed |
| PipedriveResources.Resource.LoadFixedFields | sync/pipedrive/resources.py:268-312 | each fixed field registered under itself and set to None |
| PipedriveResources.Resource.GetAttr | sync/pipedrive/resources.py:22-57 | an attribute held is returned as is; AttributeError exactly for a name neither held nor registered to another key |
| PipedriveResources.Resource.Payload | sync/pipedrive/resources.py:70-87 | defined exactly when every registered key reads; each value defaulted and flattened as the entity layer does |
| PipedriveResources.Resource.ResourceData | sync/pipedrive/resources.py:70-87 | the loop computes `Payload`, or the exception of a key that does not read |
| PipedriveResources.Resource.Init | sync/pipedrive/resources.py:140-150 | the attributes after every pair of the object is assigned in turn, flattened |
| PipedriveResources.Resource.Load | sync/pipedrive/resources.py:126-150 | the attributes `LoadedAttrs` defines, or its exception with nothing changed |
| PipedriveResources.Resource.Save | sync/pipedrive/resources.py:170-179 | the payload, then the id, is read; the answer is loaded, an empty one raises SavingError |
| PipedriveResources.New | sync/pipedrive/resources.py:13-20 | raises for an empty schema; otherwise the fields registered, then the resource loaded |
| PipedriveResources.SaveWithoutIdRaises | sync/pipedrive/resources.py:170-172 | a resource whose schema lacks `id` cannot be saved |
| EarliestPipedrive.PayloadValue | pipedrive/resources.py:62-78 | a value that is neither a resource nor a dict with an id is sent as it is |
| EarliestPipedrive.NoDefaults | pipedrive/resources.py:62-78 | a blank person name goes out blank, where the later layers send `Unknown Unknown` |
| EarliestPipedrive.Target | pipedrive/resources.py:102-113 | any field but `name` takes the value as the id; by name, nothing exactly when the search finds nothing |
| EarliestPipedrive.FirstHitTaken | pipedrive/resources.py:106-113 | the first search result is taken; with several results the later layer finds nothing |
| EarliestPipedrive.DeletedResourceLoaded | pipedrive/resources.py:114-128 | a deleted resource is loaded, where the later layer skips it |
| EarliestPipedrive.Resource.constructor | pipedrive/resources.py:11-18 | a resource starts with no attribute |
| EarliestPipedrive.Resource.SetAttr | pipedrive/resources.py:51-56 | the value is written under the key a registered name leads to |
| EarliestPipedrive.Resource.LoadFields | pipedrive/resources.py:88-100 | the registrations and types of the schema; InitializationError for an empty schema |
| EarliestPipedrive.Resource.RegisterField | pipedrive/resources.py:94-98 | one more field registered under its snake-cased name, its type recorded and its key set to None |
| EarliestPipedrive.Resource.GetAttr | pipedrive/resources.py:20-49 | an attribute held, or the one under a registered name's key; AttributeError otherwise |
| EarliestPipedrive.Resource.Payload | pipedrive/resources.py:62-78 | defined exactly when every registered key reads; one value per key, sent as it is |
| EarliestPipedrive.Resource.ResourceData | pipedrive/resources.py:62-78 | the loop computes exactly `Payload` |
| EarliestPipedrive.Resource.Init | pipedrive/resources.py:114-128 | the attributes after every pair of the object is assigned in turn |
| EarliestPipedrive.Resource.Load | pipedrive/resources.py:102-128 | the attributes `LoadedAttrs` defines |
| EarliestPipedrive.Resource.Save | pipedrive/resources.py:130-139 | the payload and the id are read; the answer is loaded, an empty one raises SavingError |
| EarliestPipedrive.New | pipedrive/resources.py:11-18 | raises exactly when the schema is empty; otherwise the fields registered, then the resource loaded |
| MarketoResources.FieldsToUpdate | marketo/resources.py:100-173 | a lead sends `toDelete` false and no default email; a role's isPrimary defaults to false; opportunities and companies have no defaults |
| MarketoResources.LeadFieldsDiffer | marketo/resources.py:100-119 | a lead sends no default email and always its company id, unlike the entity layer |
| MarketoResources.PayloadOf | marketo/resources.py:24-35 | exactly the writable fields of the schema, each with its value or its default |
| MarketoResources.FalsySentAsDefault | marketo/resources.py:29-33 | a falsy value is sent as the field's default |
| MarketoResources.TruthySent | marketo/resources.py:29-33 | a value that is not falsy is sent as it is |
| MarketoResources.ZeroEmployeesLost | marketo/resources.py:29-33 | a company with 0 employees sends None here and 0 in the entity layer |
| MarketoResources.Saved | marketo/resources.py:71-82 | an exception exactly when the answer is empty or lacks the id field; otherwise only the id field and `id` change, both to the id answered |
| MarketoResources.OtherAnswerFieldsIgnored | marketo/resources.py:71-82 | what Marketo sends beside the id is ignored, where the entity layer loads it |
| MarketoResources.Resource.constructor | marketo/resources.py:11-19 | a resource starts with no attribute and the id field `id` |
| MarketoResources.Resource.LoadFields | marketo/resources.py:45-57 | one None attribute per described field, and the id field; InitializationError when nothing is described |
| MarketoResources.Resource.RegisterNames | marketo/resources.py:51-53 | each name recorded and its attribute set to None |
| MarketoResources.Resource.Load | marketo/resources.py:59-69 | the object returned for the id is loaded, by the field given or the id field |
| MarketoResources.Resource.ResourceData | marketo/resources.py:24-35 | the loop computes exactly `Payload` |
| MarketoResources.Resource.Save | marketo/resources.py:71-82 | AttributeError when the resource has no `id`; otherwise the attributes `Saved` defines |
| MarketoResources.New | marketo/resources.py:11-19 | raises when Marketo describes nothing; otherwise the resource has the described fields |
| RootAdapters.SplitNameGetFirst | adapters.py:11-13 | all words but the last for a name of two or more words, the empty text otherwise |
| RootAdapters.SplitNameGetLast | adapters.py:16-18 | the last word, or the empty text when there is none |
| RootAdapters.NameRoundTrip | adapters.py:11-18 | first name, a space and last name rebuild any name of two or more single-spaced words |
| RootAdapters.OneWordNameDiffers | adapters.py:11-13 | a one-word name has no first name here, where sync/adapters.py keeps the word |
| RootAdapters.LongNamesSplitAlike | adapters.py:11-18 | on names of two words or more both versions split alike |
| RootAdapters.CountryIsoToName | adapters.py:4-8 | None passes; a known code gives its name; anything else raises |
| RootAdapters.CountryNameToIso | adapters.py:21-25 | None passes; a known name gives its code; anything else raises |
| RootAdapters.CountryRoundTrip | adapters.py:4-25 | with a consistent table, a code turned into its name and back is the code again |
| RootAdapters.EmptyCountryRaises | adapters.py:4-8 | the empty text is no country and raises |
| RootAdapters.OrganizationToName | adapters.py:28-32 | the empty text for no organization, its name otherwise; raises for anything without a name |
| RootAdapters.Apply | adapters.py:11-18 | splitting anything but text raises; the adapters that call other code answer what it answers |
| RootAdapters.ApplyOpt | mappings.py:6-82 | a missing adapter leaves the value unchanged |
| RootMappings.TablesWellFormed | mappings.py:6-82 | every entry reads at least one field, and no table writes a field twice |
| RootMappings.NameFromTwoFields | mappings.py:10-12 | a person's name comes from the lead's first and last names, with no mode |
| RootMappings.CompanyIdAdaptedTwice | mappings.py:59-63 | a lead's company id is the organization's name turned into an external id |
| RootMappings.CrossReferencesMapped | mappings.py:7-9 | `marketoid` copies the lead's id and `pipedriveId` the person's |
| RootMappings.CompanyTablesMirror | mappings.py:29-76 | the organization and company tables copy each field straight back |
| LegacyEngine.Piece | marketo_pipedrive_sync.py:289 | None becomes the empty text; a value `str()` accepts becomes its ASCII text; a text outside ASCII raises UnicodeEncodeError |
| LegacyEngine.Collect | marketo_pipedrive_sync.py:286-290 | the loop over an entry's fields: defined exactly when every field reads without an exception, and then one text per field in order; otherwise the exception one of the fields raised |
| LegacyEngine.CollectStep | marketo_pipedrive_sync.py:286-290 | one more field: its exception, or one more text |
| LegacyEngine.CollectRaisedStays | marketo_pipedrive_sync.py:286-290 | once a field raised, later fields do not change the outcome |
| LegacyEngine.CollectAgree | marketo_sync.py:96-101 | two ways of reading that agree on every field gather the same texts or raise the same exception |
| LegacyEngine.Pieces | marketo_pipedrive_sync.py:286-290 | defined exactly when every field is read, pre-adapted and stringified without an exception, and then one text per field; otherwise the exception of one of the fields |
| LegacyEngine.PiecesRaisedStays | marketo_pipedrive_sync.py:286-290 | once a field raised, later fields do not change the outcome |
| LegacyEngine.GetNewAttr | marketo_pipedrive_sync.py:279-299 | the loop computes exactly `NewAttr` |
| LegacyEngine.ReadPiece | marketo_pipedrive_sync.py:282-289 | one more field read and pre-adapted: the pieces `Pieces` defines for one more field, or the exception |
| LegacyEngine.PostAdapterSeesText | marketo_pipedrive_sync.py:292-297 | the post-adapter always receives text, never None |
| LegacyEngine.SingleFieldAsText | marketo_pipedrive_sync.py:289-292 | a single plain field is copied as its text (an integer as its digits), and a text outside ASCII raises UnicodeEncodeError |
| LegacyEngine.Spaces | marketo_pipedrive_sync.py:292 | a run of spaces of the length asked |
| LegacyEngine.JoinEmpties | marketo_pipedrive_sync.py:292 | joining empty texts leaves the separators |
| LegacyEngine.MissingFieldsLeaveSpaces | marketo_pipedrive_sync.py:289-292 | fields that are all missing still give one space between each two |
| LegacyEngine.NamelessLeadNamedSpace | marketo_pipedrive_sync.py:289-292 | a lead with no names gives a person named with a single space, which is truthy |
| LegacyEngine.MissingCountryRaises | marketo_pipedrive_sync.py:289-297 | a lead without a country reaches `country_iso_to_name` as the empty text, which raises |
| LegacyEngine.Update | marketo_pipedrive_sync.py:261-276 | raises UnicodeEncodeError exactly when the target has the field and `str()` refuses the new or the old value; otherwise a change exactly when the target lacks the field or the texts differ, and only then is the field written |
| LegacyEngine.BlankOverwrites | marketo_pipedrive_sync.py:261-276 | a field that holds something is overwritten by the empty text, which the later engine refuses |
| LegacyEngine.SameTextKept | marketo_pipedrive_sync.py:261-276 | a number is not replaced by its own text, which the later engine does replace |
| LegacyEngine.UpdateIdempotent | marketo_pipedrive_sync.py:261-276 | writing the same text, or any truthy value, a second time changes nothing; a value `str()` refuses raises the second time |
| LegacyEngine.ZeroRewrittenEveryTime | marketo_pipedrive_sync.py:261-276 | a falsy number is written again on every run |
| LegacyEngine.RaisedStays | marketo_pipedrive_sync.py:54-57 | once an entry raised, later entries do not change the outcome |
| LegacyEngine.PlainNeverRaises | marketo_pipedrive_sync.py:54-57 | entries without adapters never raise on fields and a target `str()` accepts, and the target's values stay accepted |
| LegacyEngine.ApplyAllFrame | marketo_pipedrive_sync.py:54-57 | a field no entry writes keeps its value, or its absence |
| LegacyEngine.PrefixRanThrough | marketo_pipedrive_sync.py:54-57 | a prefix of a table that ran through did not raise either |
| LegacyEngine.PlainRaisesOnlyOnText | marketo_pipedrive_sync.py:54-57 | entries without adapters raise nothing but UnicodeEncodeError |
| LegacyEngine.PiecesRaiseOnlyOnText | marketo_pipedrive_sync.py:286-290 | fields read without a pre-adapter raise nothing but UnicodeEncodeError |
| LegacyEngine.ClientField | marketo_sync.py:97-101 | a field raises what its adapter raised; otherwise it raises exactly when `str()` refuses the adapted value, and then UnicodeEncodeError |
| LegacyEngine.ClientPieces | marketo_sync.py:96-101 | defined exactly when every field is read, adapted and stringified without an exception, and then one text per field; otherwise UnicodeEncodeError or an exception the adapter raised on one of the fields |
| LegacyEngine.ClientPiecesStep | marketo_sync.py:96-101 | one more field: its exception, or one more text |
| LegacyEngine.ClientPiecesRaisedStays | marketo_sync.py:96-101 | once a field raised, later fields do not change the outcome |
| LegacyEngine.ClientApplyAllStep | marketo_sync.py:47-49 | one more entry of a table applied after the entries before it |
| LegacyEngine.ClientRaisedStays | marketo_sync.py:47-49 | once an entry raised, later entries do not change the outcome |
| LegacyEngine.ClientRaises | marketo_sync.py:92-112 | a table of marketo_sync.py raises nothing but UnicodeEncodeError and the exceptions its adapters raised on fields of the source |
| LegacyEngine.EarlyVersionsAgree | marketo_sync.py:92-112 | without adapters both early engines write a field alike |
| LegacyEngine.OwnerNotCounted | marketo_pipedrive_sync.py:54-63 | the owner never counts as a change: the sync task crashes exactly when the table raises, is skipped exactly when the table changes nothing, and a person it writes always has the fixed owner |
| LegacyEngine.PersonTaskOutcome | marketo_pipedrive_sync.py:54-79 | an exception is reported with nothing written; no change is reported skipped with nothing written; a change is reported created or updated |
| LegacyEngine.PersonTaskSaves | marketo_pipedrive_sync.py:59-70 | a change saves the person with the fixed owner and reports its id; linking the lead back leaves that person as saved |
| LegacyEngine.OpenAny | pipedrive/resources.py:102-128 | the id is None exactly when nothing is stored under the id found, and then the record is blank; otherwise the stored fields are copied, deleted or not |
| LegacyEngine.OpenAnyExtendsOpen | pipedrive/resources.py:102-128 | whatever the later entities load, the early resources load alike |
| LegacyEngine.DeletedPersonLoaded | pipedrive/resources.py:114-121 | a person deleted in Pipedrive is loaded, with its `active_flag`, where the later entities load nothing |
| LegacyEngine.DeletedPersonStillUpdated | marketo_pipedrive_sync.py:49-70 | a lead linked to a deleted person updates that person under its id, and it stays deleted |
| LegacyEngine.DeletedPersonWritten | marketo_pipedrive_sync.py:62-70 | a change to a deleted person the table kept as found is saved over it |
| LegacyEngine.SavedOverDeleted | pipedrive/resources.py:130-141 | a person saved under a stored id with its `active_flag` is updated in place and stays deleted |
| LegacyEngine.PersonTableKeeps | mappings.py:3-30 | PERSON_TO_LEAD leaves the person's `id` and `active_flag` as found |
| LegacyEngine.PersonTableStart | mappings.py:3-30 | PERSON_TO_LEAD starts with three entries without adapters, the second joining the first and last names |
| LegacyEngine.MissingCountryTableRaises | marketo_pipedrive_sync.py:54-57 | PERSON_TO_LEAD on a lead without a country raises: the country lookup, or UnicodeEncodeError from an earlier field; only the lookup when the earlier fields are ASCII |
| LegacyEngine.AccentedNameTableRaises | marketo_pipedrive_sync.py:286-290 | PERSON_TO_LEAD on a lead whose first name is outside ASCII raises UnicodeEncodeError |
| LegacyEngine.AccentedNameCrashes | marketo_pipedrive_sync.py:49-57 | such a lead makes the person task fail with UnicodeEncodeError, with nothing written |
| LegacyEngine.LinkedLeadWritten | marketo_pipedrive_sync.py:62-70 | a changed person with its id kept is updated in place, then the lead is saved |
| LegacyEngine.MissingCountryCrashes | marketo_pipedrive_sync.py:40-79 | every lead without a country makes the person task fail, with nothing written: the country lookup raises, or an earlier text outside ASCII does |
| LegacyEngine.LinkedLeadSavedAgain | marketo_pipedrive_sync.py:67-70 | a lead already linked is saved again whenever its person changes |
| LegacyEngine.LeadTaskWrites | marketo_pipedrive_sync.py:120-156 | the lead task writes only leads and persons, and nothing at all when it crashes or is skipped |
| LegacyEngine.EarliestPersonTaskWrites | marketo_sync.py:40-64 | the person task of marketo_sync.py raises what its table raised (UnicodeEncodeError or an adapter's exception), writes nothing when its table raises or changes nothing, and otherwise saves the person with the fixed owner |
| LegacyEngine.EarliestLeadTaskWrites | marketo_sync.py:68-89 | the lead task of marketo_sync.py raises what its table raised (UnicodeEncodeError or an adapter's exception), writes nothing when its table raises or changes nothing, and otherwise stores the lead with every field the table gave it |
| LegacyEngine.Resource.constructor | marketo_pipedrive_sync.py:44 | the target starts with the attributes given |
| LegacyEngine.Resource.UpdateField | marketo_pipedrive_sync.py:261-276 | the exception of `NewAttr` with nothing changed, or the effect or exception of `Update` |
| LegacyEngine.Resource.WriteAttr | marketo_pipedrive_sync.py:266-274 | the comparison and write: the effect of `Update`, or its UnicodeEncodeError with nothing changed |
| LegacyEngine.Resource.ApplyTable | marketo_pipedrive_sync.py:54-57 | the loop leaves the attributes and the flag `ApplyAll` defines, or its exception |
| LegacyEngine.Resource.ApplyEntry | marketo_pipedrive_sync.py:55-56 | one more entry of the loop: its exception, or the attributes and flag `ApplyAll` defines for one more entry |
| LegacyEngine.Resource.UpdateFieldWithClient | marketo_sync.py:92-112 | the new attributes and flag are those of `ClientUpdate`, or its exception with nothing changed |
| LegacyEngine.Resource.ApplyClientTable | marketo_sync.py:47-49 | the loop leaves the attributes and the flag `ClientApplyAll` defines, or its exception |
| LegacyEngine.Resource.ApplyClientEntry | marketo_sync.py:47-49 | one more entry of the loop: its exception, or the attributes and flag `ClientApplyAll` defines for one more entry |
| LegacyEngine.SyncPerson | marketo_pipedrive_sync.py:40-79 | the new state and the result are those of `PersonTask` |
| LegacyEngine.SyncLead | marketo_pipedrive_sync.py:120-156 | the new state and the result are those of `LeadTask` |
| LegacyEngine.SyncPersonEarliest | marketo_sync.py:40-64 | the new state is that of `EarliestPersonTask`, or its exception with both CRMs untouched |
| LegacyEngine.SyncLeadEarliest | marketo_sync.py:68-89 | the new state is that of `EarliestLeadTask`, or its exception with both CRMs untouched |

## Left out

- HTTP: the REST clients, their URLs, paging, tokens and the 404/400 handling
  are not modelled. A client is a value of functions (`fields`, `fetch`,
  `search`, `filter`, `put`, `delete`), and an error status is an empty answer.
- Related entities: `__getattr__` loading and caching a related person,
  organization, user or stage is not modelled. A related entity is a value
  (`Obj`) held in the attribute. Reading by name follows one key redirection.
- Logging, the views, the queue of sync tasks, the worker and the Datadog hooks are not
  modelled, because they do not change what a task computes.
- The task layer (`Tasks`) stores records by field name. It takes the key
  redirection and option decoding of `PipedriveEntity.Entity.GetAttr` as
  already applied to what a Pipedrive lookup returns.
- ClientField: the adapter of an entry of marketo_sync.py also receives the
  target CRM's client. The client is the same for the whole run, so it is
  bound inside the adapter; what the adapter does with the client is not
  modelled. The adapter can raise only the exceptions this model names.
- Dictionary iteration order: Python 2 dictionaries have no defined order.
  The mapping tables are sequences in declaration order, and `update_field`
  over distinct targets gives the same result in any order.
- Adapters that call other code are not interpreted. `Registry.Env.oracle`
  answers for them: `company_name_to_org_id`, `organization_to_external_id`,
  `lead_name_to_user_id`, `industry_name_to_code`, `industry_code_to_name`,
  `type_code_to_name`, `big_bot_id`, `organization_to_name`,
  `organization_name_to_external_id`, `number_to_float` (floating point) and
  `today_date` (the clock). The same holds for `get_id_part_from_external`
  and the sync task's lookups by field. `company_name_to_org_id` and
  `organization_name_to_external_id` are named by the mappings but defined
  nowhere, so in Python reaching them raises NameError; the oracle answers
  them like the others.
- The tables `PIPEDRIVE_TO_MARKETO` and `MARKETO_TO_PIPEDRIVE` that
  marketo_sync.py imports are not part of this model. Its tasks take the
  table as a parameter.
- `ACTIVITY_TO_LEAD` is not part of this model. The activity task takes it
  as a parameter of the world (`Tasks.World.activityTable`).
- The country table of `pycountry` is a pair of maps. Its contents are not
  modelled.
- `strptime` is modelled only for the three layouts the date adapters use.
  Its other directives and the locale are not part of this model.
- The organization and company tasks of marketo_pipedrive_sync.py
  (lines 81-114 and 159-196) are not modelled. They look their record up by
  name through `find_resource_by_name`, whose search is not modelled.
- The opportunity task of marketo_pipedrive_sync.py (lines 199-258) is not
  modelled. Its role part reads `role.id` when no role was created, the
  defect modelled for sync/functions.py as `Tasks.EarlyMissingRoleRaises`.
- Exceptions carry the entity name only. The message strings of
  `InitializationError` and `SavingError` are not modelled.
- Tasks.Locate: a lookup by any field but `id` is answered by the world's
  search function. The name, filter and domain searches behind it are
  stated in `PipedriveEntity` instead.
- Tasks.Save: `Save` is stated for both CRMs at once. The payload filtering
  of each CRM is stated separately, by `PipedriveEntity.Entity.Payload` and
  `MarketoEntity.PayloadOf`.
- Values that are neither text nor None where both CRMs' JSON gives text
  or None are outside this model for the members below. Each returns a value
  where Python raises on such a value; the model does not carry that
  exception.
- SplitNameGetFirst: a truthy name that is no text is returned as is, where
  `name.split()` raises AttributeError.
- SplitNameGetLast: the same AttributeError of `name.split()` is not carried.
- UserNameToUserIdOrBigBot: a truthy name that is no text counts as blank,
  where `.strip()` raises AttributeError.
- UserNameToUserId: the same AttributeError of `.strip()` is not carried.
- DatetimeToDate: a truthy value that is no text gives None, where
  `strptime` raises TypeError, which the adapter does not catch.
- DatetimeToDate2: the same TypeError of `strptime` is not carried.
- DatetimeToQuarter: the same TypeError of `strptime` is not carried.
- DatetimeToYear: the same TypeError of `strptime` is not carried.
- JoinMode: a truthy value that is no text is joined through its text, where
  `' '.join` raises TypeError. `Engine.Combine` and `Engine.TruthyTexts`
  share this.
- PrimaryValue: a list element without a `primary` key counts as unmarked,
  where `v['primary']` raises KeyError. An element marked primary but
  without a `value` key gives None, where `v['value']` raises KeyError.
- FoundByName: a truthy name that is no text finds nothing, where
  `name.strip()` raises AttributeError.
- FoundByFilter: an `email_domain` that is no text is sent as is, where
  `filter_value.strip()` raises AttributeError.
- PyInt: decimal digits outside ASCII, which `int()` of a unicode text also
  reads, are not modelled; such a text is not a literal here.
- Save: `Tasks.Save` never raises SavingError, and it stores the payload as
  sent rather than the record Pipedrive answers with.
- SaveCreates: a Marketo record saved without an id always gets a fresh id.
  Marketo's `createOrUpdate` action deduplicates instead
  (sync/marketo/client.py:103-109): a role by its three dedupe fields
  (external opportunity id, lead id and role), an opportunity by its
  external id, and a lead sent without an id by its email, Marketo's default
  lookup field. A record sent again for the same key is a new record here
  rather than an update of the stored one.
- LinkedLeadSavedAgain: it rests on that echo. marketo_pipedrive_sync.py:66
  compares the lead's id with the `marketoid` in Pipedrive's answer, which
  the model takes to be the one sent.
- Get: `Values.Get` gives None for an absent field, where `getattr` on a
  Marketo entity raises AttributeError. The `hasattr` of sync/tasks.py:433,
  which swallows every exception, is modelled as a plain membership test.
- Lower: `SnakeCase.Lower` folds ASCII capitals only, where `unicode.lower()`
  also folds capitals outside ASCII.
- Integers are unbounded. Python 2 promotes to `long`, so no wrap-around
  exists to model.

## Findings

| source | as written | input that shows it | evidently intended | confidence | as-written member | corrected member |
|---|---|---|---|---|---|---|
| sync/tasks.py:222-238 | the flag a new company sets is reset by the loop over the table (`data_changed = update_field(...) or data_changed` follows a plain `data_changed = False`), so a company that is not found but whose mapped values are all blank is skipped and never created | an organization whose name, industry and people count are all None, with no company in Marketo | a company that is not found is always created, as sync/functions.py:183-199 does | not executed | Tasks.NewCompanySkippedAsWritten | Tasks.NewCompanyCreated |
| sync/functions.py:282-300 | the result reads `role.id` even when no role was created (`role` stays None), which raises AttributeError after the opportunity was saved | a deal whose contact person has no `marketoid` | the result omits the role when there is none | not executed | Tasks.EarlyMissingRoleRaises | Tasks.EarlyMissingRoleOmitted |
