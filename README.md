# etrace GitHub crawler — a Dafny model of its record-to-domain layer

etrace crawls GitHub. It fetches events from the REST API, or it has an LLM
extract records from GitHub pages. It then turns those loosely typed
dictionaries into domain models (events, repositories, user profiles,
activities) and serializes them for JSON output. This project models that
conversion layer and the pure helpers around it, one Dafny module per
Python source file:

| module | file |
|---|---|
| `Enums` | `src/model/github/enums.py`: `ModelType`, `ActivityType`, `RepositoryType`, `RepositoryLanguage` with their `auto()` values |
| `Events` | `src/model/github/event.py`: payload variants, `Event.from_api_response`, `get_event_summary` |
| `Converters` | `src/model/github/converters.py`: the profile and event converters and the batch converter |
| `Repositories` | `src/model/github/repository.py`: language normalisation, activity level, topics, language percentages, `from_api_response` with fork enhancement |
| `Users` | `src/model/github/user.py`: influence and activity level, full name, organisations, account age, the search-result filters and the influence sort |
| `Activities` | `src/model/github/activity.py`: type normalisation, the summary table, `ActivityStats.from_activities` |
| `Serializer` | `src/util/serializer.py`: `serialize_for_json`, the model-list conversion, display truncation |
| `Extraction` | `src/model/github/extraction.py`: the LLM extraction schemas, their defaults, instructions and configuration |
| `SchemaMapping` | `src/model/github/schema_mapping.py`: the business-model and extraction-schema maps |
| `BaseStrategy` | `src/strategy/base_strategy.py`: URL validation before delegation |
| `GitHubStrategies` | `src/strategy/github_strategy.py`: `GitHubStrategy`, a class whose `crawl_*` methods update `model_type` |
| `GitHubApi` | `src/service/github_api.py`: headers, endpoints, `_fetch_events`, `get_multiple_user_events` (the class `GitHubApiService`) |

Three support modules stand in for Python itself:
- `Wrappers` provides `Option` and `Result`.
- `Text` provides ASCII case mapping, `strip`, substring search, and `int()`/`str()` on decimal integers.
- `Values` provides a dynamic `Value` type for JSON-like data (`Record` is a dict). It also models truthiness, `dict.get`, `a or b`, `str()`, `int()` and `hash`-ability. A raised exception is a `PyError`.

Conventions:
- A Python exception is the `Err` branch of a `Result`.
- The wall clock is a parameter `now`, in seconds since the epoch.
- `datetime.fromisoformat` is a parameter `parseIso: string -> Option<int>`. Only the "Z" to "+00:00" rewrite before it is modelled.
- Other calls into code outside the layer are parameters too: Python's `hash`, `json.dumps` and pydantic's JSON-schema generator.
- Floating-point scores use exact `real` arithmetic.

Where the code and its documentation disagree, the model follows the code.
`converters.py:18` names `ModelType.EVENT`, which `ModelType` does not have
(`enums.py:7-11`). So `convert_extraction_to_domain` raises `AttributeError`
for every model type except `USER_PROFILE`. `convert_batch` then drops every
record of such a batch. `Converters.ConvertExtractionToDomain` and
`Converters.BatchOfOtherTypeIsEmpty` state this behaviour as written.

## Model

| member | source | states |
|---|---|---|
| Enums.ParseModelType | src/model/github/enums.py:7-11 | a string parses to a model type only if it is that member's value |
| Enums.ParseActivityType | src/model/github/enums.py:14-26 | a string parses to an activity type only if it is that member's value |
| Enums.AllMembersListed | src/model/github/enums.py:7-57 | the member lists used for iteration contain every member, and the activity-type and language lists have no duplicates |
| Enums.AutoModelTypeValueIsLowerName | src/model/github/enums.py:7-11 | each `auto()` value of ModelType is its member name lower-cased (there is no EVENT member) |
| Enums.AutoActivityValueIsLowerName | src/model/github/enums.py:14-26 | each ActivityType value is its member name lower-cased, UNKNOWN included |
| Enums.AutoRepositoryTypeValueIsLowerName | src/model/github/enums.py:29-35 | each RepositoryType value is its member name lower-cased |
| Enums.AutoLanguageValueIsLowerName | src/model/github/enums.py:38-57 | each RepositoryLanguage value is its member name lower-cased (CPP is "cpp", OTHER is "other") |
| Enums.ParseInvertsValue | src/model/github/enums.py:7-26 | parsing a member's value gives back that member |
| Enums.LanguageValuesDistinct | src/model/github/enums.py:38-57 | distinct languages have distinct values, so a value lookup selects at most one member |
| Text.UpperEqIffLowerEq | src/model/github/repository.py:112-114 | comparing upper-cased strings is the same as comparing lower-cased ones |
| Text.StripEmptyIffBlank | src/model/github/repository.py:109 | `strip()` is empty exactly when every character is whitespace |
| Text.BlankStripsLeftToEmpty | src/model/github/repository.py:109 | stripping an all-whitespace text from the left leaves nothing |
| Text.ParseIntOfIntToString | src/model/github/converters.py:56-59 | `int()` reads back every integer that `str()` writes |
| Text.ParseIntOfZero | src/model/github/converters.py:56-59 | `int("0")`, the fallback of the count idiom, is 0 |
| Text.IntToStringTrimmed | src/model/github/converters.py:56-59 | the decimal text of an integer is non-empty with no whitespace at either end |
| Text.ParseSignedOfIntToString | src/model/github/converters.py:56-59 | the sign and digits of an integer's decimal text read back as that integer |
| Text.CommaRejected | src/model/github/converters.py:56-59 | `int()` rejects any text containing a comma |
| Values.Get | src/model/github/converters.py:31-33 | `dict.get` returns the stored value for a present key and the default otherwise |
| Values.Or | src/model/github/converters.py:40 | `a or b` is `a` when `a` is truthy and `b` otherwise |
| Values.PyInt | src/model/github/converters.py:56-59 | `int(v)` keeps an int, parses a string exactly when the text is a decimal integer in ASCII digits, and raises for None, lists and dicts |
| Values.CountField | src/model/github/converters.py:56-59 | `int(d.get(k, '0') or '0')` is 0 for a missing, None or empty field, and is `int()` of a non-empty string |
| Values.CountFieldOfNumber | src/model/github/converters.py:56-59 | a count written as decimal text reads back as that number |
| Values.CountFieldRejectsSeparator | src/model/github/converters.py:56-59 | a count "1,024" raises instead of being read as 1024 |
| Events.VariantOf | src/model/github/event.py:87-100 | the six exact type strings select their variant; every other value, "pushEvent" and "" included, selects the generic payload |
| Events.Extra | src/model/github/event.py:21-25 | the extra fields a payload keeps are exactly the input keys its class does not declare |
| Events.PushFrom | src/model/github/event.py:28-35 | a parsed push payload is a push payload that keeps the undeclared fields |
| Events.PushFromFields | src/model/github/event.py:28-35 | each declared push field is the input value or its default, and `commits` defaults to the empty list |
| Events.WatchFrom | src/model/github/event.py:38-39 | a parsed watch payload keeps the undeclared fields |
| Events.CreateFrom | src/model/github/event.py:42-47 | a parsed create payload keeps the undeclared fields |
| Events.ForkFrom | src/model/github/event.py:50-51 | a parsed fork payload keeps the undeclared fields |
| Events.IssuesFrom | src/model/github/event.py:54-55 | a parsed issues payload keeps the undeclared fields |
| Events.PullRequestFrom | src/model/github/event.py:58-60 | a parsed pull-request payload keeps the undeclared fields |
| Events.GenericFrom | src/model/github/event.py:21-25 | a parsed generic payload keeps every field but `action` |
| Events.Dispatch | src/model/github/event.py:84-100 | a payload that is not a dict fails; a parsed payload is the variant the tag selects and keeps the undeclared fields |
| Events.DefaultFields | src/model/github/event.py:21-60 | the defaults of each variant cover exactly its declared fields |
| Events.FieldReadBack | src/model/github/event.py:21-60 | an optional field read from a payload dumps back to the value that was read |
| Events.DumpEquals | src/model/github/event.py:21-25 | a dump with the declared fields (input or default) and the extra fields is the defaults overlaid by the input |
| Events.PushKeepsFields | src/model/github/event.py:28-35 | dumping a parsed push payload gives its defaults overlaid by the input dict |
| Events.PushDeclaredFields | src/model/github/event.py:28-35 | each declared field of a dumped push payload is the input value, or its default when the input lacks it |
| Events.PushDumpFields | src/model/github/event.py:28-35 | dumping a push payload writes every declared field, each from its own attribute |
| Events.PushDefault | src/model/github/event.py:28-35 | a push payload defaults `commits` to the empty list and every other declared field to None |
| Events.WatchKeepsFields | src/model/github/event.py:38-39 | dumping a parsed watch payload gives its defaults overlaid by the input dict |
| Events.CreateKeepsFields | src/model/github/event.py:42-47 | dumping a parsed create payload gives its defaults overlaid by the input dict |
| Events.CreateDeclaredFields | src/model/github/event.py:42-47 | each declared field of a dumped create payload is the input value, or its default when the input lacks it |
| Events.CreateDefault | src/model/github/event.py:42-47 | every declared field of a create payload defaults to None |
| Events.ForkKeepsFields | src/model/github/event.py:50-51 | dumping a parsed fork payload gives its defaults overlaid by the input dict |
| Events.IssuesKeepsFields | src/model/github/event.py:54-55 | dumping a parsed issues payload gives its defaults overlaid by the input dict |
| Events.PullRequestKeepsFields | src/model/github/event.py:58-60 | dumping a parsed pull-request payload gives its defaults overlaid by the input dict |
| Events.GenericKeepsFields | src/model/github/event.py:21-25 | dumping a parsed generic payload gives its defaults overlaid by the input dict |
| Events.DispatchKeepsFields | src/model/github/event.py:87-100 | whatever variant the tag selects, no input field is lost or altered: the dump is the defaults overlaid by the input |
| Events.ExtraFieldsPreserved | src/model/github/event.py:21-25 | every undeclared input field survives dispatch with its value |
| Events.UnknownTagNeverFails | src/model/github/event.py:99-100 | an unrecognised tag never fails dispatch when `action` is a string or None, and yields the generic payload |
| Events.DispatchIsCaseSensitive | src/model/github/event.py:87-100 | "pushEvent" and "" select the generic payload while "PushEvent" selects the push payload |
| Events.PayloadDefaults | src/model/github/event.py:35-39 | a watch payload without `action` is "started", and a push payload without `commits` has the empty list |
| Events.IsoText | src/model/github/event.py:109 | the text given to the ISO parser has no "Z" left and is unchanged when there was none |
| Events.CreatedAt | src/model/github/event.py:109 | `created_at` parses exactly when it is a string that the ISO parser accepts after the rewrite; there is no fallback |
| Events.FromApiResponse | src/model/github/event.py:83-111 | a missing required key fails; a parsed event's payload matches its type, and its id, type, public flag, creation time and org come from the record |
| Events.WellFormedRecordParses | src/model/github/event.py:102-111 | a record with every required key well formed and no `org` parses, with `org` None |
| Events.MissingPayloadIsEmpty | src/model/github/event.py:84 | a missing `payload` behaves exactly like `{}` |
| Events.SameEventFields | src/model/github/event.py:84-111 | two records that agree on the payload as read with its `{}` default and on every other key the parse reads give the same result |
| Events.SummaryMiddle | src/model/github/event.py:117-134 | the words each branch puts between actor and repository begin and end with a space |
| Events.Summary | src/model/github/event.py:113-134 | every summary starts with the actor's login and a space, and ends with a space and the repository name |
| Events.SummaryOfParsedEvent | src/model/github/event.py:113-134 | for an event parsed from a record: a push summary counts the commits the record lists (0 when none), a watch summary is "starred", a create summary shows the payload's `ref_type` ("None" when absent), a fork summary is "forked", an issue or pull-request summary shows the action ("None" when absent), and a type outside the payload table reads "performed {type}" |
| Events.SummaryOfPayload | src/model/github/event.py:113-134 | the same seven cases for any event whose payload was dispatched from the record's payload dict |
| Events.FixedSummary | src/model/github/event.py:119-134 | the watch, fork and untabled summaries, which do not read the payload |
| Events.CreateSummaryOfDispatched | src/model/github/event.py:121-123 | a create summary shows the `ref_type` text of the payload dict it was built from, or "None" |
| Events.CreateRefTypeRead | src/model/github/event.py:121-123 | a create payload's `ref_type` shows as the input text, or "None" |
| Events.SummaryOfDispatched | src/model/github/event.py:113-134 | for push, issues and pull-request events, the summary shows the commit count or the action read from the payload dict the event was built from |
| Events.ParsedPayload | src/model/github/event.py:84-100 | a parsed event's payload is what its type selects, built from the record's payload dict |
| Events.PushCommitsRead | src/model/github/event.py:113-119 | a push payload's commit count is the length of the `commits` list it was built from, 0 without one |
| Events.IssuesActionRead | src/model/github/event.py:126-128 | an issues payload's action shows as the input text, or "None" |
| Events.PullRequestActionRead | src/model/github/event.py:129-131 | a pull-request payload's action shows as the input text, or "None" |
| Converters.Username | src/model/github/converters.py:31-33 | the username is a truthy `username`, else `login` (even if empty), else `name`, else "unknown" |
| Converters.ProfileStatsOf | src/model/github/converters.py:55-61 | the stats succeed exactly when all four counts convert, hold those counts, and have 0 collaborators |
| Converters.StatsReadableIsEveryKey | src/model/github/converters.py:55-61 | the four counts parse exactly when every key of the counter list parses |
| Converters.EveryStatKey | src/model/github/converters.py:55-61 | the converter reads exactly the four counters followers, following, public_repos and public_gists |
| Converters.ConvertUserProfile | src/model/github/converters.py:28-64 | the conversion succeeds exactly when all four counts convert; id and username are the chosen username and `html_url` is the GitHub URL of it |
| Converters.EmptyLoginIsKept | src/model/github/converters.py:31-33 | an empty `login` is kept as the username with no further fallback, and the profile URL is then bare |
| Converters.ProfileConstants | src/model/github/converters.py:41-63 | hireable is true, site_admin is false, gravatar_id is empty, collaborators is 0 and organizations is empty |
| Converters.BlankCountIsZero | src/model/github/converters.py:56-59 | a count that is missing, None or empty is 0 |
| Converters.MissingStatsAreZero | src/model/github/converters.py:55-61 | a record with no counts converts, with all-zero stats |
| Converters.SeparatorRejectsProfile | src/model/github/converters.py:56 | a follower count "1,024" makes the whole profile conversion raise |
| Converters.HashOf | src/model/github/converters.py:79-85 | `hash` succeeds exactly on hashable values and returns the process's hash of them |
| Converters.ActorRecord | src/model/github/converters.py:78-83 | the actor dict has exactly the keys id, login, avatar_url and url, with the given values |
| Converters.RepoRecord | src/model/github/converters.py:84-88 | the repo dict has exactly the keys id, name and url |
| Converters.PayloadRecord | src/model/github/converters.py:89-93 | the payload dict has exactly the keys action, size and ref |
| Converters.EventRecord | src/model/github/converters.py:75-96 | the event dict has exactly the API keys, with `public` true |
| Converters.ConvertEvent | src/model/github/converters.py:73-96 | the conversion succeeds exactly when both `hash` calls succeed (the actor name and the repository name are hashable) and the commit count converts; the type is the extracted type plus "Event", `public` is true, the id is the hash of "{type}_{timestamp}", and `created_at` is the timestamp or now |
| Converters.EventIdDependsOnKeyOnly | src/model/github/converters.py:76 | two records with equal type and timestamp get the same event id |
| Converters.ConvertedEventShape | src/model/github/converters.py:75-96 | with text fields and a convertible count, the converted dict is well typed for the event parser |
| Converters.ConvertedActorAndRepoParse | src/model/github/converters.py:78-88 | the converted actor and repo dicts are accepted by the event's actor and repo parsers |
| Converters.ConvertedPayloadDispatches | src/model/github/converters.py:89-93 | the converted payload is accepted by every payload variant |
| Converters.ConvertedEventParses | src/model/github/converters.py:73-96 | a converted record with a parseable timestamp is accepted by `Event.from_api_response`, with type "{type}Event" and `public` true |
| Converters.ShapedRecordParses | src/model/github/event.py:83-111 | a record of the converted shape whose timestamp parses is accepted, keeping its type, with `public` true and no org |
| Converters.ConvertExtractionToDomain | src/model/github/converters.py:14-21 | USER_PROFILE gives the profile conversion; any other model type raises AttributeError at `ModelType.EVENT` |
| Converters.BatchResult | src/model/github/converters.py:105-117 | what `convert_batch` returns is never longer than its input |
| Converters.BatchIsOrderedSubsequence | src/model/github/converters.py:105-117 | the batch output is, in input order, the conversions of exactly the records that convert: each output comes from a converting record, the sources strictly increase, and every record that converts is among them |
| Converters.BatchKeepsConvertible | src/model/github/converters.py:105-117 | when every record converts, nothing is dropped |
| Converters.BatchOfOtherTypeIsEmpty | src/model/github/converters.py:105-117 | a batch for any model type but USER_PROFILE comes back empty (the converter lookup at lines 16-21 raises for them) |
| Converters.Kept | src/model/github/converters.py:105-117 | keeping the successful results never lengthens the list |
| Converters.KeptIsOrderedSubsequence | src/model/github/converters.py:105-117 | each kept result is the successful result of its own input, those inputs appear in strictly increasing order, and every input that succeeds is one of them |
| Converters.KeptStep | src/model/github/converters.py:105-117 | appending one input extends the index list of the kept results: the new index is appended when the new input succeeds, and the list is unchanged when it fails |
| Converters.KeptAllOk | src/model/github/converters.py:105-117 | when every input succeeds, nothing is dropped |
| Converters.KeptAllErr | src/model/github/converters.py:105-117 | when every input fails, nothing is kept |
| Converters.SchemaToModelConverter.constructor | src/model/github/converters.py:102-103 | the converter stores its model type |
| Converters.SchemaToModelConverter.ConvertBatch | src/model/github/converters.py:105-117 | the append loop returns exactly the batch result for the stored model type |
| Repositories.ValidateLanguage | src/model/github/repository.py:106-117 | a non-string passes through unchanged and only a non-string does; blank text, and only blank text, becomes None; a member other than OTHER is chosen only when the text equals its value ignoring case |
| Repositories.FindLanguage | src/model/github/repository.py:112-116 | the search returns a listed member whose upper-cased value matches, and returns none only if no member matches |
| Repositories.LanguageValueIsLower | src/model/github/enums.py:38-57 | every language value is already lower-case |
| Repositories.UpperMatchIffLowerMatch | src/model/github/repository.py:112-114 | an upper-case match against a value is a lower-case match of the input |
| Repositories.BlankIsNoLanguage | src/model/github/repository.py:108-110 | an empty or whitespace-only language becomes None |
| Repositories.AnyCaseSelectsMember | src/model/github/repository.py:111-115 | a string equal to a member's value in any case selects that member |
| Repositories.UnknownIsOther | src/model/github/repository.py:111-116 | any other non-blank string becomes OTHER |
| Repositories.SymbolNamesAreOther | src/model/github/repository.py:112-116 | "C++" and "C#" become OTHER, since the values are "cpp" and "csharp" |
| Repositories.SymbolIsOther | src/model/github/repository.py:112-116 | a text lower-casing to "c++" or "c#" is no member value, so it becomes OTHER |
| Repositories.SymbolsAreNoValue | src/model/github/enums.py:38-57 | no language value is "c++" or "c#" |
| Repositories.ActivityLevel | src/model/github/repository.py:153-166 | "Very High" exactly for a score of at least 1000, "High" for [100, 1000), "Medium" for [10, 100), "Low" for (0, 10) and "Inactive" for a score of 0 or less |
| Repositories.PopularityScore | src/model/github/repository.py:38-43 | with non-negative counts the score is non-negative and at least the star count |
| Repositories.ActivityLevelMonotone | src/model/github/repository.py:157-166 | a higher score never gives a lower level |
| Repositories.PopularityGrowsWithStars | src/model/github/repository.py:38-43 | each extra star adds exactly 1 to the popularity score |
| Repositories.ActivityLevelExamples | src/model/github/repository.py:153-166 | 1000 stars are "Very High" and an all-zero repository is "Inactive" |
| Repositories.IsActive | src/model/github/repository.py:132-137 | a repository without a push date is never active; one pushed just now is active exactly when `days` is not negative |
| Repositories.IsActiveIffRecentPush | src/model/github/repository.py:132-137 | a repository is active exactly when it has a push date and fewer than `days + 1` whole days have passed since |
| Repositories.HasTopic | src/model/github/repository.py:50-52 | a topic is present exactly when some listed topic equals it case-insensitively |
| Repositories.HasTopicIgnoresCase | src/model/github/repository.py:50-52 | the lookup gives the same answer for a topic and its upper-cased form |
| Repositories.SumBytesRemove | src/model/github/repository.py:144 | the byte total splits into one language's bytes plus the total of the rest |
| Repositories.SumSharesRemove | src/model/github/repository.py:148-151 | the share total splits into one language's share plus the total of the rest |
| Repositories.Shares | src/model/github/repository.py:148-151 | the shares have the same keys as the byte counts |
| Repositories.LanguagePercentage | src/model/github/repository.py:139-151 | no languages or a zero total give an empty map; otherwise the keys are kept and each value is bytes / total * 100 |
| Repositories.ShareAdd | src/model/github/repository.py:149 | the shares of two parts add up to the share of their sum |
| Repositories.SelfShare | src/model/github/repository.py:149 | the whole is 100 percent of itself |
| Repositories.SharesSum | src/model/github/repository.py:144-151 | the shares sum to the byte total over the divisor, times 100 |
| Repositories.SharesStep | src/model/github/repository.py:144-151 | both the byte total and the share total split into one language's part plus the total of the rest |
| Repositories.SharesSumStep | src/model/github/repository.py:144-151 | if the shares of the other languages sum to their bytes over the divisor, times 100, adding one more language keeps that true |
| Repositories.NoShares | src/model/github/repository.py:144-151 | with no languages, the shares sum to 0, which is 0 bytes over the divisor, times 100 |
| Repositories.PercentagesSumTo100 | src/model/github/repository.py:139-151 | with a non-zero byte total the percentages add up to exactly 100 |
| Repositories.CountOf | src/model/github/repository.py:199-204 | a missing count is 0, an int count is that int, and anything else fails |
| Repositories.StatsOf | src/model/github/repository.py:199-204 | the stars, forks, watchers and open-issue counts come from their API keys, and the other stats are 0 |
| Repositories.DictOf | src/model/github/repository.py:171-173 | only a dict is accepted, and it is returned unchanged |
| Repositories.LicenseOf | src/model/github/repository.py:180-188 | a falsy `license` gives no license |
| Repositories.StringsOf | src/model/github/repository.py:212-213 | the topics are a list of strings, read item by item |
| Repositories.StringItems | src/model/github/repository.py:228 | each item converted is the string it holds |
| Repositories.ByteCountsOf | src/model/github/repository.py:246 | the language byte counts keep every key and its integer |
| Repositories.FromApiResponse | src/model/github/repository.py:169-257 | `is_fork_enhanced` holds exactly for a truthy fork with a parent; then `parent_full_name` and all four stats come from the parent, otherwise from the fork itself; the id is `str(id)` and the language is normalised |
| Repositories.EnhancementKeepsOwnValues | src/model/github/repository.py:211-217 | a fork's own non-empty description and topics are never replaced by the parent's |
| Repositories.UnenhancedStatsDefaultToZero | src/model/github/repository.py:199-204 | without enhancement, missing counts give all-zero stats |
| Users.ActivityLevel | src/model/github/user.py:113-126 | "Very High" exactly for an influence of at least 10000, "High" for [1000, 10000), "Medium" for [100, 1000), "Low" for (0, 100) and "New User" for 0 or less |
| Users.InfluenceScore | src/model/github/user.py:30-34 | with non-negative counts the influence is non-negative and at least the follower count |
| Users.ActivityLevelMonotone | src/model/github/user.py:113-126 | a higher influence never gives a lower level |
| Users.NoAudienceIsNewUser | src/model/github/user.py:113-126 | no followers, repositories or gists means "New User" |
| Users.FullName | src/model/github/user.py:128-132 | "{name} ({username})" when the name is truthy, else the username |
| Users.FullNameIsUsernameIff | src/model/github/user.py:128-132 | the full name is the bare username exactly when there is no name |
| Users.Logins | src/model/github/user.py:136-137 | the logins of the organisations, in order |
| Users.HasOrganization | src/model/github/user.py:134-137 | membership holds exactly when some organisation login equals the name case-insensitively |
| Users.NoOrganizations | src/model/github/user.py:134-137 | a user without organisations belongs to none |
| Users.PrimaryLanguage | src/model/github/user.py:139-143 | the primary language is always None |
| Users.AccountAgeDays | src/model/github/user.py:145-148 | the age is the number of whole days elapsed, rounded down |
| Users.IsVeteranUser | src/model/github/user.py:150-152 | with `years` of 0 or less every account not created in the future is a veteran; with `years` of 1 or more an account less than 365 days old is not |
| Users.VeteranIffOldEnough | src/model/github/user.py:150-152 | a veteran is exactly an account at least `years * 365` days old |
| Users.VeteranForFewerYears | src/model/github/user.py:150-152 | a veteran for some number of years is a veteran for any smaller number |
| Users.FilterBy | src/model/github/user.py:161-169 | a user is kept exactly when the field is non-empty and contains the query case-insensitively, and the result is no longer than the input |
| Users.FilterByLocation | src/model/github/user.py:161-164 | the location filter keeps exactly the users whose location contains the query |
| Users.FilterByCompany | src/model/github/user.py:166-169 | the company filter keeps exactly the users whose company contains the query |
| Users.FilterKeepsOrder | src/model/github/user.py:161-169 | filtering a concatenation is concatenating the filtered parts, so the input order is kept |
| Users.EmptyFieldNeverMatches | src/model/github/user.py:163-169 | a user with no or an empty field is never kept, even for an empty query |
| Users.Insert | src/model/github/user.py:171-175 | an insertion step adds the user to the multiset |
| Users.InsertMembers | src/model/github/user.py:171-175 | an insertion step brings in nobody else |
| Users.PrependKeepsOrder | src/model/github/user.py:171-175 | a user at least as influential as all the rest can go first |
| Users.InsertKeepsOrder | src/model/github/user.py:171-175 | insertion keeps the order non-increasing |
| Users.SortByInfluence | src/model/github/user.py:171-175 | the sort is a permutation of the users in non-increasing influence |
| Users.InsertWithInfluence | src/model/github/user.py:171-175 | insertion keeps the relative order of users with equal influence |
| Users.SortIsStable | src/model/github/user.py:171-175 | users with equal influence keep their original order |
| Activities.ValidateActivityType | src/model/github/activity.py:62-71 | a string is lower-cased and mapped to the member with that value, or to UNKNOWN; a non-string is refused |
| Activities.ValidatorAcceptsValueAndName | src/model/github/activity.py:66-68 | both a member's value and its upper-case name select it |
| Activities.LowerIdempotent | src/model/github/activity.py:68 | lower-casing twice is lower-casing once |
| Activities.UnknownTextIsUnknown | src/model/github/activity.py:69-70 | text matching no value becomes UNKNOWN |
| Activities.ActorName | src/model/github/activity.py:96 | the display name when it is truthy, else the username |
| Activities.Phrase | src/model/github/activity.py:99-111 | the phrase between actor and repository is non-empty and neither starts nor ends with a space, so the template's single spaces separate the three parts |
| Activities.Summary | src/model/github/activity.py:94-111 | every summary starts with the actor name and ends with the repository name |
| Activities.UntabledTypesUseTheirValue | src/model/github/activity.py:111 | ISSUE_COMMENT and UNKNOWN read "{actor} performed {value} on {repo}" |
| Activities.PhraseInjective | src/model/github/activity.py:99-111 | different types get different phrases |
| Activities.SummaryDeterminesType | src/model/github/activity.py:94-111 | for the same actor and repository, the summary determines the type |
| Activities.RepoOrderMembers | src/model/github/activity.py:139-144 | the repository keys are exactly the repositories the activities name |
| Activities.RepoOrderDistinct | src/model/github/activity.py:139-144 | each repository key appears once |
| Activities.AbsentRepoCountsZero | src/model/github/activity.py:139-144 | a repository that is not a key has count 0 |
| Activities.TypesOfMembers | src/model/github/activity.py:133-137 | the type keys are exactly the types that occur |
| Activities.LatestTime | src/model/github/activity.py:150 | the latest time is at least every activity's time and belongs to one of them |
| Activities.MostActiveUnique | src/model/github/activity.py:147 | only one repository is the most active |
| Activities.FromActivities | src/model/github/activity.py:122-157 | an empty list gives the default stats; otherwise total is the length, each type count is that type's occurrences, the most active repository has the maximal count and comes first among ties, the last date is the latest time, and the streak stays 0 |
| Activities.CountActivities | src/model/github/activity.py:129-144 | the counting loop leaves every type and repository count equal to its occurrences, with repositories in first-seen order |
| Activities.MostActiveRepository | src/model/github/activity.py:147 | `max` over the repository counts picks the first maximal entry |
| Activities.LatestActivity | src/model/github/activity.py:150 | `max` by creation time finds the latest time |
| Activities.LatestStep | src/model/github/activity.py:150 | one more activity raises the latest time to its own exactly when it is later |
| Activities.TypesCountedStep | src/model/github/activity.py:132-137 | counting one more activity's type keeps every type count equal to its occurrences |
| Activities.ReposCountedStep | src/model/github/activity.py:139-144 | counting one more activity's repository keeps every repository count exact and the key order first-seen |
| Activities.AbsentTypeCountsZero | src/model/github/activity.py:133-137 | a type that is not a key has count 0 |
| Activities.SumCountsOfNone | src/model/github/activity.py:129 | no activities give a zero sum |
| Activities.SumCountsStep | src/model/github/activity.py:133-137 | one more activity adds one to the sum over distinct types that include its type |
| Activities.TypeCountsSumToTotal | src/model/github/activity.py:132-137 | the counts by type add up to the total |
| Serializer.SerializeForJson | src/util/serializer.py:16-38 | lists and dicts keep their length or keys and are serialized item by item; an object becomes the dict of its attributes; a model becomes its dump; a date becomes its ISO text; scalars are unchanged |
| Serializer.SerializeModelFreeIsJson | src/util/serializer.py:16-38 | without models inside, one pass leaves only JSON values |
| Serializer.SerializeKeepsJson | src/util/serializer.py:28-38 | a JSON value is left unchanged |
| Serializer.SerializeIdempotentWithoutModels | src/util/serializer.py:16-38 | without models, serializing twice equals serializing once |
| Serializer.SerializeNotIdempotent | src/util/serializer.py:26-27 | a datetime inside a model dump survives the first pass and only becomes text on the second |
| Serializer.ConvertModelList | src/util/serializer.py:84-94 | the conversion succeeds exactly when every item is a model, and gives the dumps in order |
| Serializer.ModelListAgreesWithSerializer | src/util/serializer.py:84-94 | on a list of models the conversion equals `serialize_for_json` of the list |
| Serializer.Take | src/util/serializer.py:110 | `xs[:n]` is a prefix of `xs`: n items when 0 <= n <= length, all of them when n is larger, all but the last -n when n is negative, and none when -n reaches the length |
| Serializer.FormatDataForDisplay | src/util/serializer.py:97-120 | a list longer than `max_items` is dumped cut to `data[:max_items]` and followed by the note naming the limit and the total; any other value is dumped whole with no note |
| Serializer.LongListIsCut | src/util/serializer.py:108-117 | a list longer than the limit shows exactly its first `max_items` items, with a note naming the limit and the total |
| Serializer.ShortListIsWhole | src/util/serializer.py:108-120 | a short list, or anything that is not a list, is shown whole with no note |
| Serializer.NegativeLimitDropsFromEnd | src/util/serializer.py:108-110 | a negative limit drops that many items from the end |
| Extraction.FieldNames | src/model/github/extraction.py:10-172 | only the base schema declares no fields; every concrete schema declares some |
| Extraction.Default | src/model/github/extraction.py:33-172 | only a declared field has a default |
| Extraction.FirstMissing | src/model/github/extraction.py:10-172 | a missing required field is reported exactly when there is one, and the reported field is one |
| Extraction.Instantiate | src/model/github/extraction.py:33-172 | building a schema succeeds exactly when every required field is present; the result has exactly the declared fields, with the input's value or the default; otherwise a missing required field is named |
| Extraction.RepositoryTextDefaults | src/model/github/extraction.py:85-98 | missing repository counts default to the text "0" and missing flags to the text "false" |
| Extraction.UserProfileCountDefaults | src/model/github/extraction.py:134-137 | missing user counts default to the text "0" |
| Extraction.SimpleActivityNeedsAllFields | src/model/github/extraction.py:161-167 | the simple activity schema needs all four of its fields |
| Extraction.InstructionOf | src/model/github/extraction.py:13-16 | the base schema raises NotImplementedError; every concrete schema has its own instruction (the concrete schemas override it at lines 55-64, 101-112, 147-158 and 169-172) |
| Extraction.CreateExtractionConfig | src/model/github/extraction.py:23-30 | the config holds the generated JSON schema, the schema's instruction and `extraction_type` "schema", and fails only where the instruction does |
| Extraction.SchemaForKey | src/model/github/extraction.py:176-186 | an unknown key falls back to the simple activity schema, and the lookup never gives the base schema |
| Extraction.LookedUpSchemaHasConfig | src/model/github/extraction.py:176-186 | every schema the lookup returns can build its configuration |
| SchemaMapping.GetBusinessModel | src/model/github/schema_mapping.py:41-45 | ACTIVITY, REPOSITORY and USER_PROFILE map to Activity, Repository and UserProfile, and the ValueError branch is unreachable |
| SchemaMapping.GetExtractionSchema | src/model/github/schema_mapping.py:48-60 | the standard or simple map is chosen by the flag; it never fails and never gives the base schema |
| SchemaMapping.SimpleDiffersOnlyAtActivity | src/model/github/schema_mapping.py:27-38 | the simple and standard maps agree exactly on the types other than ACTIVITY |
| SchemaMapping.GetExtractionInstruction | src/model/github/schema_mapping.py:63-66 | the instruction is the one of the chosen schema |
| SchemaMapping.StandardMapAgreesWithKeyLookup | src/model/github/schema_mapping.py:27-31 | the standard map agrees with the string-keyed schema lookup at each model type's value |
| SchemaMapping.ConvertExtractionToBusiness | src/model/github/schema_mapping.py:69-77 | the data is returned unchanged |
| BaseStrategy.ValidateUrl | src/strategy/base_strategy.py:20-21 | a valid URL has at least seven characters and starts with "http" |
| BaseStrategy.InvalidUrlsOf | src/strategy/base_strategy.py:31 | the invalid URLs are exactly the listed URLs that fail validation, and there are no more of them than URLs |
| BaseStrategy.InvalidUrlsInOrder | src/strategy/base_strategy.py:31 | the invalid URLs are listed in input order |
| BaseStrategy.CrawlSingleUrl | src/strategy/base_strategy.py:23-28 | an invalid URL is refused before the model class is asked for; otherwise the URL is crawled with the model class |
| BaseStrategy.CrawlMultipleUrls | src/strategy/base_strategy.py:30-36 | any invalid URL refuses the whole list, naming the invalid ones; otherwise the list is crawled unchanged |
| BaseStrategy.RefusalNamesEveryInvalidUrl | src/strategy/base_strategy.py:30-33 | the refusal names exactly the invalid URLs |
| GitHubStrategies.GitHubValidateUrl | src/strategy/github_strategy.py:25-27 | a URL the GitHub strategy accepts also passes the base check and is long enough to contain "github.com" |
| GitHubStrategies.GitHubPageUrlIsValid | src/strategy/github_strategy.py:25-27 | every "https://github.com/..." URL passes validation |
| GitHubStrategies.OtherHostsRefused | src/strategy/github_strategy.py:25-27 | a URL not containing "github.com" is refused |
| GitHubStrategies.ModelClassOf | src/strategy/github_strategy.py:13-23 | "activity", "repository" and "user" have a model class; any other model type raises |
| GitHubStrategies.GitHubStrategy.constructor | src/strategy/github_strategy.py:10-12 | the strategy stores its model type |
| GitHubStrategies.GitHubStrategy.Default | src/strategy/github_strategy.py:10 | the model type defaults to "activity" |
| GitHubStrategies.GitHubStrategy.GetModelClass | src/strategy/github_strategy.py:19-23 | the model class follows the current model type |
| GitHubStrategies.GitHubStrategy.Execute | src/strategy/github_strategy.py:29-31 | execute is the base single-URL crawl with the GitHub validation and the current model class |
| GitHubStrategies.GitHubStrategy.CrawlUserRepositories | src/strategy/github_strategy.py:33-37 | sets the model type to "repository" and crawls "https://github.com/{user}?tab=repositories" |
| GitHubStrategies.GitHubStrategy.CrawlUserActivity | src/strategy/github_strategy.py:39-43 | sets the model type to "activity" and crawls the user's page |
| GitHubStrategies.GitHubStrategy.CrawlUserProfile | src/strategy/github_strategy.py:45-49 | sets the model type to "user" and crawls the user's page |
| GitHubStrategies.GitHubStrategy.CrawlRepositoryInfo | src/strategy/github_strategy.py:51-55 | sets the model type to "repository" and crawls "https://github.com/{owner}/{repo}" |
| GitHubApi.HeadersFor | src/service/github_api.py:20-28 | the Authorization header "token {t}" is present exactly when a non-empty token is set, beside the three fixed headers |
| GitHubApi.Path | src/service/github_api.py:41-162 | every endpoint path starts with "/" and ends with "/events", "_events" or "/public" |
| GitHubApi.UserPathsNameTheUser | src/service/github_api.py:61-121 | the per-user endpoints sit under "/users/{username}/" |
| GitHubApi.FetchOutcome | src/service/github_api.py:192-219 | events come only from a status-200 response; from a list body there are no more events than records, and any other accepted body gives no events |
| GitHubApi.OnlyStatus200HasEvents | src/service/github_api.py:192-219 | a status-200 list body always gives events rather than None |
| GitHubApi.ParseEventsInOrder | src/service/github_api.py:197-204 | the events of a concatenation are the events of its parts, in order |
| GitHubApi.ParseEvents | src/service/github_api.py:197-206 | parsing never yields more events than there are records |
| GitHubApi.ParseEventsCount | src/service/github_api.py:197-206 | exactly one event per record when every record parses |
| GitHubApi.ParsedEventsComeFromItems | src/service/github_api.py:198-201 | every event is the parse of one of the records |
| GitHubApi.TaskEndpoint | src/service/github_api.py:244-253 | each user's endpoint is for that user; an unknown event type falls back to the public events |
| GitHubApi.GitHubApiService.constructor | src/service/github_api.py:16-28 | the service starts with the headers the token determines |
| GitHubApi.GitHubApiService.RequestFor | src/service/github_api.py:41-45 | a request goes to the base URL plus the endpoint's path, with the service's headers, `per_page` capped at 100 and `page` unchanged |
| GitHubApi.GitHubApiService.FetchEvents | src/service/github_api.py:170-219 | the loop returns the outcome for the response: the parsed records of a 200 list body in order, and None for another status or an exception |
| GitHubApi.GitHubApiService.GetMultipleUserEvents | src/service/github_api.py:221-270 | one request per user on the routed endpoint; the result has exactly the users as keys, and a later duplicate overwrites an earlier one |
| GitHubApi.GatheredStep | src/service/github_api.py:261-268 | storing one more user's outcome keeps the map keyed by exactly the users seen so far, each holding the outcome of its last occurrence |
| GitHubApi.LastOccurrenceOfPrefix | src/service/github_api.py:261-268 | the last occurrence in a longer prefix is the last in the shorter one and differs from the new name |

## Left out

- HTTP, the `httpx` client and the asyncio orchestration (`Semaphore`, `gather`) are not modelled. A fetch is given the server's response, or the fact that the request raised. Tasks are processed in input order, and a task cannot raise inside `gather`.
- The crawler service and the LLM wrapper (`src/service/crawler.py`, `src/service/llm.py`) are not part of this model. A crawl returns a `CrawlRequest` value naming the URL(s) and the model class that would be crawled.
- `DataSerializer.save_to_json` is not modelled, because it writes files. `json.dumps` is the parameter `dumps` of `FormatDataForDisplay`.
- `datetime.fromisoformat` is the abstract parameter `parseIso`. The `datetime.now()` fallbacks of the date validators are not modelled. Where the code reads the clock, the time is a parameter `now`.
- Floating-point rounding is not modelled: scores and percentages use exact reals. Nothing is claimed at a threshold boundary under IEEE rounding.
- Python's per-process salted `hash` is the parameter `hash`. Only determinism within one run is claimed.
- Pydantic coercion is not modelled: `HttpUrl` checks, the date and bool coercion of model fields, and `model_json_schema` (the parameter `jsonSchema`). Values reaching a model are taken as already typed.
- The instruction texts of the extraction schemas are not reproduced. An instruction records only which schema wrote it.
- `str()` of a list or dict is a placeholder text.
- Case mapping (`lower()`, `upper()`) is ASCII only, not Unicode. Whitespace for `strip()` is Python's full `isspace` set.
- Fields that no modelled operation reads are omitted from the datatypes. For example, the user's bio and social links and the repository's nested `parent` and `source` repositories are absent.
- Python's default arguments are not defaults here: the callers pass them explicitly (`per_page=30`, `page=1`, `max_items=10`, `days=30`, `years=5`).
- Extraction.Instantiate: reports the first missing required field in declaration order, where pydantic reports them all.
- GitHubApi.FetchOutcome: a dict or string body gives an empty list, as the failing per-item parses would leave it. Any other non-list body gives None.
- Activities.LatestActivity, Activities.LatestTime, Users.AccountAgeDays, Repositories.IsActive: times are whole seconds since the epoch, so two timezone behaviours of the source are not modelled. `max(..., key=created_at)` raises TypeError when naive and aware datetimes are mixed, and the model never fails. `datetime.now() - t.replace(tzinfo=None)` drops the UTC offset without converting, so a "+08:00" time is read as local wall-clock time, while the model compares true instants; day counts can differ by one near the offset.
- Values.PyInt, Text.ParseInt: only the ASCII digits 0-9 are read. Python's `int()` also accepts the other Unicode decimal digits (category Nd), such as the full-width "１２"; a count written that way converts in the source but makes the model's conversion fail, so `convert_batch` drops that record in the model only.
- Converters.ConvertUserProfile: one `now` serves both `created_at` and `updated_at`, where the source calls `datetime.now()` twice; `ProfileConstants` therefore proves the two equal, which the source does not guarantee.
- Activities.FromActivities: `max` by creation time returns the first latest activity, but only its time is modelled, since that is all the stats keep.
- The `__init__` modules, the legacy declarations, the front-ends (`main.py`, `api.py`), settings and logging are not part of this model.
