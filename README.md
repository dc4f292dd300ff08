# splicectl core, modelled in Dafny

splicectl is the command-line client of the Splice Machine Kubernetes platform. Its
commands talk to a Cloud Manager REST server and to the cluster. This project models the
logic those commands run between the calls. The REST server, the Kubernetes API, the
terminal prompts, the clock and the file system are inputs to the model. The project
proves what each command does with those inputs:

- **Session gate and `-o` validation** of `PersistentPreRun` (`cmd/main.go`). This is built
  on `auth.Info` (`auth/auth_functions.go`) and on an RFC 3339 reader for the session's
  validity stamp. The gate tests `os.Args[1]`, the first word on the command line, not
  the subcommand cobra picks, so `splicectl -o json version` still needs a session. A
  failed read of the token secret ends the process, as in the source.
- **Output format choice** in `outputData` / `OutputData` (`cmd/config/config.go`), and the
  trimmed version answer.
- **Shared helpers** in `common/functions.go`:
  - `DatabaseName`, the flag-alias preference with its warning;
  - `WantJSON`;
  - `RestructureVersions`, which parses keys with `strconv.ParseInt` and sorts by version.
- **Client version** in `ClientSemVer` (`cmd/main.go`): the regular-expression match of
  `v<digits>.<digits>.<digits>`.
- **Workspace guards** of `pause`, `resume` and both `delete` commands. Each looks up the
  first listed cluster with the name. `delete` also needs `--delete`.
- **Prompts** of `cmd/tui_functions.go`: how options are built and answers read back, and
  which failures are returned and which end the process.
- **`create database`** in both variants (`cmd/create_database.go` and
  `cmd/create_splice-database.go`): how `populateRequest` merges flags, a request file and
  prompt answers, and the warnings it stops with.
- **`apply default-cr`**: the validation of a default custom resource, and that only a
  validated document is posted.
- **`get urls`**: the ingress URL listing, its sort and rendering, and the fixed
  `--build`/`--prod` blocks. An ingress rule without an HTTP block makes the listing
  dereference a nil pointer, and the model reports that panic as an outcome.
- **`override`**: the component and resource lookup, the listing, and the guard on the
  default/override requests.
- **`get logs`**: the log collector as a class over an abstract file system. It covers
  directory creation, one log file per container, the byte counts and the dispatcher.
  `os.RemoveAll` is not atomic: a failed removal has still deleted every entry it could.
- **System settings text table**, with base64 credentials optionally decoded. The
  decoder is the padded standard alphabet of section 4 of RFC 4648.

Where the written description of a command and its code disagree, the model follows the
code. The contract states the code's behaviour. Each difference that looks unintended is
listed under "Findings", with the corrected behaviour modelled and proved beside it.

## Model

| member | source | states |
|---|---|---|
| Auth.Info.NewAuth | auth/auth_functions.go:39-44 | a new client holds the environment and session it is given, and no token bearer yet |
| Auth.NewAuthView | auth/auth_functions.go:47-59 | the getters of a new client return an empty bearer, the session's id and the session unchanged |
| Auth.Info.RetrieveTokenBearer | auth/auth_functions.go:62-87 | the process exits exactly when the cluster configuration, the client or the secret cannot be had, and the bearer is then untouched; otherwise the bearer becomes the trimmed secret value stored under the session id plus the bearer suffix, or "" when that key is absent, and the result is true exactly when that bearer is non-empty; session and environment do not change |
| Auth.Info.CheckTokenValidity | auth/auth_functions.go:90-103 | the secret is read only when the session id and stamp are non-empty and the stamp is not before now, and the process exits exactly when that read fails; valid exactly when the read succeeds and the bearer is non-empty; the bearer is otherwise left as it was |
| Auth.EmptySessionInvalid | auth/auth_functions.go:92-94 | a session with an empty id or an empty stamp is invalid and never reads the secret, so it never exits there |
| Auth.UnreadableStampExpired | auth/auth_functions.go:96-101 | a stamp that does not parse is read as Go's zero Time, so it has expired at every later instant |
| Auth.ExpiryOfWrittenStamp | auth/auth_functions.go:96-101 | for any valid date-time written in RFC 3339 form, expiry holds exactly when its instant is before now |
| Auth.BlankBearerInvalid | auth/auth_functions.go:81-86 | a bearer made only of white space counts as no bearer, so the session is invalid |
| Auth.BlankTrimsToEmpty | auth/auth_functions.go:82 | trimming text made only of white space leaves nothing |
| Rfc3339.Parse | auth/auth_functions.go:96 | a date-time that parses has every field in range (month 1-12, day within its month, offset within ±23:59) |
| Rfc3339.FormatRoundTrip | auth/auth_functions.go:96 | every valid date-time written in the RFC 3339 layout (section 5.6 of RFC 3339) parses back to itself |
| Rfc3339.ZoneRoundTrip | auth/auth_functions.go:96 | every offset within ±23:59 written as "Z" or "±hh:mm" reads back as that offset |
| Rfc3339.FractionRoundTrip | auth/auth_functions.go:96 | a nanosecond fraction written with nine digits reads back as itself, and the text after it is left for the zone |
| Rfc3339.Zone | auth/auth_functions.go:96 | a zone that reads has an offset of at most 23 hours 59 minutes either way |
| Rfc3339.Fraction | auth/auth_functions.go:96 | the fraction read is below one second, and only the fraction is consumed |
| Rfc3339.Field | auth/auth_functions.go:96 | a numeric field that reads lies within the range the reader checks for it |
| Rfc3339.PadValue | auth/auth_functions.go:96 | a number padded to a width it fits in reads back as itself |
| Rfc3339.HeadLayout | auth/auth_functions.go:96 | the date and time of day are 19 characters, with the fields at their fixed positions between the '-', 'T' and ':' separators |
| Rfc3339.HeadFields | auth/auth_functions.go:96 | each fixed-position field of a written date and time reads back, within its range, as the field written |
| Rfc3339.ParseExamples | auth/auth_functions.go:96 | a lower-case 'z' and a space in place of 'T' are both parse errors |
| Rfc3339.NotAfter | auth/auth_functions.go:96-99 | a stamp that does not parse stands for instant 0, Go's zero Time |
| Rfc3339.YearLength | auth/auth_functions.go:99 | in the instant scale Before compares on, consecutive years are 366 days apart in leap years and 365 otherwise |
| Rfc3339.MonthsFillYear | auth/auth_functions.go:99 | the twelve months add up to the days of their year |
| Rfc3339.OffsetShiftsInstant | auth/auth_functions.go:99 | a wall clock with an offset east of UTC names an instant that is earlier by exactly that offset |
| RootCommand.ViperString | cmd/main.go:103-106 | a configured key reads as its value, and a missing key as the text Sprintf prints for nil |
| RootCommand.PersistentPreRun | cmd/main.go:101-129 | unless the first command-line argument (os.Args[1], not the subcommand) is "version", a new auth client is made from the stored session; the process exits on the secret exactly when that argument is not "version" and the read of a reached secret fails; it exits as expired exactly when the argument is neither "version" nor "auth", the secret did not end it and the session is invalid; otherwise it exits on -o exactly when validation fails; once ready, the format and its overridden flag are the validated ones |
| RootCommand.CheckSession | cmd/main.go:101-112 | only a first argument "version" skips the auth client; the secret exit and the expired exit each happen exactly when the gate says so; the format fields are untouched |
| RootCommand.ApplyFormat | cmd/main.go:116-129 | valid exactly when the flag is empty or its lower-case form is an accepted name; an empty flag becomes "json", not overridden; an accepted flag is kept lower-cased and marked overridden |
| RootCommand.ValidateFormatCases | cmd/main.go:116-129 | validation ignores case, fails exactly on a non-empty unknown name, and marks -o as given exactly when it was non-empty |
| RootCommand.ValidateFormatIdempotent | cmd/main.go:116-125 | a validated format validates again to itself, now as an explicit choice |
| RootCommand.AcceptedFormatsRender | cmd/main.go:118-124 | of the names -o lets through, only "raw" has no renderer in outputData |
| RootCommand.MissingStampExpires | cmd/main.go:103-111 | a session whose stamp is missing from the configuration is never valid after the zero Time, and never reads the secret |
| Config.RendererChoice | cmd/config/config.go:96-109 | the renderer choice ignores case; a renderer exists exactly for json, gron, yaml, text and table; text rendering gets the no-headers flag |
| Config.RawPrintsNothing | cmd/config/config.go:96-109 | "raw", although -o accepts it, prints nothing |
| Config.VersionInfoTrim | cmd/config/config.go:82 | exactly one trailing newline is removed when the answer ends with one, and nothing otherwise |
| Config.Config.constructor | cmd/config/config.go:14-28 | the configuration starts with the flag values, not overridden, with no API server and no auth client |
| Config.Config.OutputData | cmd/config/config.go:113-119 | without an explicit -o the format becomes "text"; the printed text is the chosen renderer applied to the data; no other field changes |
| Config.Config.OutputDataDefault | cmd/config/config.go:113-118 | without an explicit -o the text table is printed, never the JSON default |
| CommonFunctions.DatabaseName | common/functions.go:93-109 | the name is the most preferred of --database-name/-d, --workspace and --database that is non-empty; it warns exactly when more than one was supplied |
| CommonFunctions.DatabaseNameCases | common/functions_test.go:11-61 | no flag gives ""; each alias alone, and all three together, give "splicedb" |
| CommonFunctions.PreferredNameIsGiven | common/functions.go:97-103 | the chosen name is one of those given, and it is "" exactly when none was given |
| CommonFunctions.WantJSONIdempotent | common/functions.go:21-38 | JSON input passes unchanged; when the YAML converter yields JSON, every success is JSON and converting it again changes nothing |
| CommonFunctions.ParseInt | common/functions.go:63 | a key that parses is a signed decimal within the 64-bit range |
| CommonFunctions.DigitsRoundTrip | common/functions.go:63 | the decimal digits of a natural number read back as that number |
| CommonFunctions.ParseIntRoundTrip | common/functions.go:63 | the decimal text of any integer parses back to it exactly when it is within the 64-bit range |
| CommonFunctions.ParseIntExamples | common/functions.go:63 | "12", "-3" and "+7" parse; "" and "1a" do not |
| CommonFunctions.CollectVersions | common/functions.go:53-69 | the loop ends as the key walk defines: the first value that fails to decode stops it with that error, the first non-integer key stops it with nothing, otherwise every entry is collected |
| CommonFunctions.SortByVersion | common/functions.go:70-72 | the versions end up sorted by ascending Version and are a permutation of those given |
| CommonFunctions.RestructureVersions | common/functions.go:41-79 | errors are passed through; on success the result is sorted by Version and is a permutation of the collected entries |
| CommonFunctions.OneEntryPerKey | common/functions.go:53-69 | when every key is an integer and every value decodes, there is one entry per key, with its Version equal to that key's integer |
| CommonFunctions.FinishedIffAllConvert | common/functions.go:53-69 | the loop runs to the end exactly when every key is an integer whose value decodes |
| CommonFunctions.NonIntegerKeyGivesEmpty | common/functions.go:63-66 | as written, a non-integer key among values that all decode ends the loop with no entries |
| CommonFunctions.VersionsComeFromKeys | common/functions.go:53-69 | every collected Version is the integer of some key of the map |
| CommonFunctions.RestructuredErrors | common/functions.go:47-51 | an unmarshal error is returned as it is; "null" gives an empty list; a document that is not an object gives the unmarshal type error |
| CommonFunctions.NonIntegerKeyHidden | common/functions.go:63-66 | as written, a map with a non-integer key yields an empty list and no error, where the conversion error was evidently meant |
| CommonFunctions.IntendedRestructuredOk | common/functions.go:63-66 | with the conversion error returned, the result is an error whenever some key is not an integer, and succeeds exactly when every key converts |
| DatabaseList.FirstMatch | cmd/pause.go:81-89 | the position found holds the name and no earlier entry does; None exactly when no entry holds it |
| DatabaseList.FirstMatchIgnoresLater | cmd/pause.go:81-89 | entries after the first match never change what is found |
| DatabaseList.FirstStatusIsSpec | cmd/pause.go:81-89 | the status test holds exactly when some entry holds the name and the first such entry has that status |
| DatabaseList.LaterDuplicatesIgnored | cmd/resume.go:81-89 | later entries with the same name never change the status answer |
| Pause.Run | cmd/pause.go:30-61 | the name comes from the flags or the prompt; a failed prompt ends the process; the pause request is sent exactly for a workspace listed as active, otherwise a warning is given |
| Pause.ActiveDecidedByFirstMatch | cmd/pause.go:69-90 | only the first cluster with the name is consulted, and a name not listed is never active |
| Resume.Run | cmd/resume.go:30-61 | the name comes from the flags or the prompt; a failed prompt ends the process; the resume request is sent exactly for a workspace listed as paused |
| Resume.PausedDecidedByFirstMatch | cmd/resume.go:69-90 | only the first cluster with the name is consulted, and a name not listed is never paused |
| Resume.NeverBothActiveAndPaused | cmd/resume.go:81-89 | no workspace is both resumable and pausable |
| Delete.MatchingClusterID | cmd/delete.go:68-87 | the id is that of the first cluster with the name, and "" when none has it |
| Delete.DeleteNamed | cmd/delete.go:40-59 | the delete request is sent exactly when --delete is set, a name is known, the listing succeeds and a cluster id is found, and it targets that id |
| Delete.RunLegacy | cmd/delete.go:26-60 | the older command takes the name from --database-name alone, or from the prompt, and then deletes as DeleteNamed states |
| Delete.Run | cmd/del/delete.go:32-65 | the newer command takes the name by the alias preference, or from the prompt, and then deletes as DeleteNamed states |
| Delete.MatchingClusterIDIsFirst | cmd/del/delete.go:85-91 | a found id belongs to the first cluster with the name, and entries listed later cannot change it |
| Delete.RunsAgreeOnPreferredName | cmd/del/delete.go:37-44 | with --database-name given, the older and newer commands resolve the same name |
| Tui.AccountOptions | cmd/tui_functions.go:68-71 | one option per account, in listing order, each showing the id, the name and the e-mail |
| Tui.DatabaseOptions | cmd/tui_functions.go:114-117 | one option per workspace, in listing order, each its DcosAppId |
| Tui.PromptForCSP | cmd/tui_functions.go:14-52 | a pick returns that provider of the fixed list; a failed prompt returns "" with its error |
| Tui.PromptForAccountID | cmd/tui_functions.go:54-100 | a failed listing or prompt returns "" with its error; a listing that does not decode ends the process; a pick returns the id read back from the chosen option |
| Tui.PromptForDatabaseName | cmd/tui_functions.go:102-151 | a failed listing is returned; a listing that does not decode and a failed prompt both end the process; a pick returns that workspace's name |
| Tui.ResolvedName | cmd/pause.go:37-43 | a name given by flags is used as it is; otherwise the name is that of the picked workspace, and it is missing exactly when the prompt fails |
| Tui.ResolveDatabaseName | cmd/pause.go:37-43 | the prompt fallback yields the resolved name |
| Tui.AccountRoundTrip | cmd/tui_functions.go:68-98 | an account id without "(" and without outer white space comes back unchanged from its option |
| Tui.AccountIdCutAtParenthesis | cmd/tui_functions.go:98 | an id containing "(" is cut short at the first one |
| CreateDatabase.DatabaseRequest.constructor | cmd/create_database.go:62 | the request starts as the zero request |
| CreateDatabase.DatabaseRequest.Loaded | cmd/create_database.go:72-76 | the request decoded from a file holds the file's values |
| CreateDatabase.RequiredWarnings | cmd/create_database.go:207-210 | one warning per required parameter, in order |
| CreateDatabase.PopulateName | cmd/create_database.go:131-136 | the name and password are the flag values when given or when there is no file; otherwise the file's are kept |
| CreateDatabase.PopulateAccount | cmd/create_database.go:137-147 | the account is the flag, or the prompt's answer when the account is missing; the process ends exactly when that prompt's listing does not decode; a failed prompt records the account as required |
| CreateDatabase.PopulateBackup | cmd/create_database.go:148-162 | each backup setting is its flag when given or when there is no file, and the file's otherwise |
| CreateDatabase.PopulateCloudProvider | cmd/create_database.go:163-173 | the provider is the flag, or the prompt's answer when it is missing; a failed prompt records it as required |
| CreateDatabase.PopulateSizing | cmd/create_database.go:174-188 | the sizing settings are merged as the backup settings are |
| CreateDatabase.PopulateNotebooks | cmd/create_database.go:189-203 | the ML Manager and notebook settings are merged as the backup settings are |
| CreateDatabase.PopulateUpper | cmd/create_database.go:205 | the provider is upper-cased |
| CreateDatabase.PopulateSettings | cmd/create_database.go:148-205 | the stages after the account run in source order |
| CreateDatabase.PopulateRequest | cmd/create_database.go:107-213 | the request after all stages, and the ending: complete, the account prompt's fatal exit, or warnings for the required parameters |
| CreateDatabase.Run | cmd/create_database.go:50-99 | a file that cannot be converted or decoded ends the process; otherwise the request is populated, then either printed as a skeleton or submitted |
| CreateDatabase.NoFileIgnoresStart | cmd/create_database.go:131-205 | without a file, nothing of the starting request survives: the flags and prompts decide every field |
| CreateDatabase.DefaultRequest | cmd/create_database.go:272-297 | with no file and no flag given, the request holds the flag defaults, with the account and provider the prompts answered |
| CreateDatabase.UntouchedFileKept | cmd/create_database.go:131-205 | a file naming an account and a provider, with no flag given, is submitted as it is apart from the upper-cased provider, and nothing is prompted |
| CreateDatabase.FlagWinsOnlyWhenGiven | cmd/create_database.go:134-162 | over a file, a flag replaces the file's value exactly when the flag was given |
| CreateDatabase.AccountPromptOnlyWhenMissing | cmd/create_database.go:137-147 | the account prompt runs, and can end the process, only when the account is given nowhere |
| CreateDatabase.CloudProviderUpperCase | cmd/create_database.go:205 | the submitted provider holds no lower-case ASCII letter, however it was given |
| CreateDatabase.AliasesDoNotOverrideFile | cmd/create_database.go:111-133 | in the newer command, the aliases name the workspace only when there is no file; a file's name is not replaced by an alias |
| CreateDatabase.LegacyNameDefaultsToTest | cmd/create_splice-database.go:264-267 | the older command names the workspace "test" when neither a file nor -d names it |
| CreateDatabase.WarningsIffPromptFailed | cmd/create_database.go:137-212 | populateRequest stops with warnings exactly when a prompt it showed failed, one warning per failed prompt |
| CreateDatabase.FlagsAvoidPrompts | cmd/create_database.go:137-173 | with --account-id and --cloud-provider given, nothing is prompted or missing, and the flags' values are submitted |
| CreateDatabase.SkelFormats | cmd/create_database.go:215-228 | the skeleton is YAML unless -o was given, JSON for -o json or gron in any case, and nothing for raw |
| DefaultCR.ValidateAcceptsExactlyWellFormed | cmd/apply_default-cr.go:31-57 | validation passes exactly on an object whose "data" is an object without its own "data", and then returns the whole document |
| DefaultCR.ValidateFailures | cmd/apply_default-cr.go:31-57 | each failure, in the order the checks run: unmarshal error, missing "data", "data" of the wrong type, doubly nested "data" |
| DefaultCR.ValidateTestCases | cmd/apply_test.go:5-29 | the five documents of the tests pass or fail as the tests expect |
| DefaultCR.PostOnlyValidated | cmd/apply_default-cr.go:67-84 | a document is posted exactly when it converts and validates, and it is posted as WantJSON returned it; a conversion failure is fatal |
| Override.FindResource | cmd/override/component.go:43-50 | a found resource carries the name and is in the list; a failure is the "no resource with name" error |
| Override.FindResourceIffListed | cmd/override/component.go:43-58 | a lookup succeeds exactly for the names the listing shows |
| Override.FindResourceIsFirst | cmd/override/component.go:43-50 | the resource found is the first with that name |
| Override.ResourceStrings | cmd/override/component.go:52-58 | the names of the resources, in list order |
| Override.ListResources | cmd/override/component.go:64-66 | a component lists its resources' names in order |
| Override.ComponentResource | cmd/override/component.go:72-74 | a component's lookup succeeds exactly for the resources it lists |
| Override.ComponentTestCases | cmd/override/override_test.go:15-64 | the lookups and listings of the tests give what the tests expect |
| Override.PrettyStrings | cmd/override/component.go:193-199 | one tab-indented line per string, in order |
| Override.PrettyAppend | cmd/override/component.go:193-199 | listing two lists one after the other is listing their concatenation |
| Override.PrettyLength | cmd/override/component.go:193-199 | the text is empty exactly for no strings, and each string costs its length plus two |
| Override.PrettyListResources | cmd/override/component.go:68-70 | a component's pretty listing is the pretty text of its resource names |
| Override.FindComponent | cmd/override/component.go:157-164 | a found component carries the name and is in the list; a failure is the "no component with name" error |
| Override.FindComponentIffListed | cmd/override/component.go:157-172 | a component lookup succeeds exactly for the names the listing shows |
| Override.ComponentStrings | cmd/override/component.go:166-172 | the names of the components, in list order |
| Override.Process | cmd/override/component.go:178-180 | the processing hook hands the components back unchanged |
| Override.GetResourceGuard | cmd/override/component.go:115-136 | no request is made for an unknown resource, which gives the lookup error; for a known one, the request goes to the defaults or the overrides path and the response's own error is dropped |
| Override.PutOverrideResourceGuard | cmd/override/component.go:140-155 | the PUT is sent only for a known resource whose data marshals, to its overrides path, and its transport error is returned |
| Override.ComponentTableNames | cmd/override/component.go:231-274 | the table has seven components with distinct names |
| Override.ComponentTableResources | cmd/override/component.go:207-274 | no component lists a resource twice |
| Override.ComponentTableLookups | cmd/override/component.go:231-274 | every listed component name finds its own entry of the table |
| Override.FirstIsOnly | cmd/override/component.go:157-164 | with distinct names, a lookup by an entry's name finds that entry |
| Urls.Title | cmd/get/get_urls.go:145 | the first letter of every word is upper-cased and every other character is kept |
| Urls.TitleExamples | cmd/get/get_urls.go:145 | "hbase" becomes "Hbase"; '-' separates words, and '_' does not |
| Urls.PreferredNameCases | cmd/get/get_urls.go:139-146 | the displayName label wins when present, even empty; otherwise the titled app label, or "" |
| Urls.PathURLs | cmd/get/get_urls.go:128-133 | one "https://host/path" entry per path, named after the ingress |
| Urls.AppendPathURLs | cmd/get/get_urls.go:128-133 | the innermost loop appends exactly the rule's path entries |
| Urls.AppendRuleURLs | cmd/get/get_urls.go:124-134 | the rule loop panics exactly when some rule has no HTTP block (rule.HTTP is nil); otherwise it appends exactly the entries of the ingress's rules in order |
| Urls.GenerateURLsFromIngresses | cmd/get/get_urls.go:111-137 | the nested loops panic exactly when an ingress that is not an OAuth proxy has a rule without HTTP block; otherwise they produce every ingress's entries, ingress after ingress |
| Urls.RuleURLsMembership | cmd/get/get_urls.go:124-134 | an entry is produced exactly when some path of some rule's HTTP block gives it |
| Urls.URLsOfMembership | cmd/get/get_urls.go:111-137 | an entry is listed exactly when some ingress that is not an OAuth proxy has a path giving it |
| Urls.ListedHasSource | cmd/get/get_urls.go:111-137 | every listed entry comes from some non-excluded ingress |
| Urls.SourceIsListed | cmd/get/get_urls.go:111-137 | every path of a non-excluded ingress is listed |
| Urls.ExcludedContributeNothing | cmd/get/get_urls.go:116-119 | an OAuth proxy ingress contributes nothing, whatever its rules |
| Urls.SortByName | cmd/get/get_urls.go:150-152 | the entries end up sorted by name and are a permutation of those given |
| Urls.Render | cmd/get/get_urls.go:163-169 | the rendering starts with a blank line |
| Urls.RenderNeverEmpty | cmd/get/get_urls.go:163-169 | the rendering is never "", so "" stands only for a failure; no entries render as one newline |
| Urls.GenerateOutputFromNamedURLs | cmd/get/get_urls.go:148-170 | the output renders a sorted permutation of the entries |
| Urls.GenerateURLsFromNamespaces | cmd/get/get_urls.go:78-109 | "" when the kube client or a listing fails first; a panic exactly when a nil HTTP block is met first; otherwise the rendering of a sorted permutation of every non-empty namespace's entries |
| Urls.FirstStopStays | cmd/get/get_urls.go:98-104 | once a listing fails or panics, later namespaces change nothing: the first failure decides |
| Urls.EmptyDatabaseNameSkipped | cmd/get/get_urls.go:88-91 | an empty database name is skipped, so only the system namespace is listed |
| Urls.FlagOutput | cmd/get/get_urls.go:49-54 | as written, --build or --prod yields the build block, and neither yields no fixed block |
| Urls.GetURLOutput | cmd/get/get_urls.go:49-58 | a fixed block for --build or --prod, and no panic; otherwise the listing of the system and database namespaces: a panic exactly when that listing panics, "" exactly when the client or a listing fails, and else the rendering of the listed entries sorted by name |
| Urls.IntendedFlagOutput | cmd/get/get_urls.go:37-38 | as documented: --build gives the build block, --prod alone the production block, and neither no fixed block |
| Urls.ProdFlagGivesBuildURLs | cmd/get/get_urls.go:52-53 | --prod alone prints the build block, which differs from the production block it documents |
| Text.DigitRunSpec | cmd/main.go:38 | the digit run takes every digit from the start and stops at the first non-digit |
| Text.ToLower | cmd/main.go:117 | the same length, each ASCII letter lower-cased and every other character kept |
| Text.ToUpper | cmd/create_database.go:205 | the same length, each ASCII letter upper-cased and every other character kept |
| Text.TrimLeftSpec | auth/auth_functions.go:82 | TrimLeft drops exactly the leading white space |
| Text.TrimRightSpec | auth/auth_functions.go:82 | TrimRight drops exactly the trailing white space |
| Text.TrimSpaceSpec | auth/auth_functions.go:82 | the trimmed text has no white space at either end |
| Text.TrimSpaceKeepsTrimmed | auth/auth_functions.go:82 | text with no outer white space is left as it is |
| Text.TrimSuffix | cmd/config/config.go:82 | the result is the text, or the text with the suffix removed from its end |
| Text.BeforeFirst | cmd/tui_functions.go:98 | the part before the first separator: a prefix without the separator, followed in the text by the separator unless it is the whole text |
| Text.LexLessTransitive | cmd/get/get_urls.go:151 | the strings.Compare order used by the sort is transitive |
| Text.LexLessTotal | cmd/get/get_urls.go:151 | any two different names are ordered one way or the other |
| Text.LexLessIrreflexive | cmd/get/get_urls.go:151 | no name is below itself |
| Text.LexLessAsymmetric | cmd/get/get_urls.go:151 | no two names are each below the other |
| Text.LexLeqTransitive | cmd/get/get_urls.go:151 | the non-strict order is transitive |
| Text.LexLeqTotal | cmd/get/get_urls.go:151 | the non-strict order is total |
| SemVer.CoreEnd | cmd/main.go:38 | a core found at a position ends after it and within the text |
| SemVer.FindCore | cmd/main.go:242 | the leftmost position where a core starts, with none before it; None exactly when no core starts anywhere |
| SemVer.LineEnd | cmd/main.go:38 | `.*` stops at the first newline or at the end |
| SemVer.CoreEndSound | cmd/main.go:38 | what CoreEnd finds is a core, and every digit after it is taken |
| SemVer.CoreEndComplete | cmd/main.go:38 | wherever a core starts, CoreEnd finds one |
| SemVer.NoCoreBefore | cmd/main.go:241-247 | no core occurs before the match the regular expression reports |
| SemVer.ClientSemVerShape | cmd/main.go:241-247 | the numeric part is a core, begins the whole match, and the match stays on one line |
| SemVer.ClientSemVerPlace | cmd/main.go:241-247 | the match starts at the leftmost core |
| SemVer.ClientSemVerFails | cmd/main.go:241-247 | the fatal error happens exactly when no core occurs anywhere in the version string |
| SemVer.ClientSemVerExample | cmd/main.go:237-240 | "v0.1.1-cacert" gives the whole text and "v0.1.1" |
| Base64.Sextet | cmd/objects/system-settings.go:103 | each alphabet character stands for a six-bit value |
| Base64.SextetOfCharOf | cmd/objects/system-settings.go:103 | the character of a six-bit value reads back as that value |
| Base64.Encode | cmd/objects/system-settings.go:103 | the padded encoding is four characters per started group of three bytes |
| Base64.QuadRoundTrip | cmd/objects/system-settings.go:103 | three bytes survive the trip through four characters |
| Base64.PairRoundTrip | cmd/objects/system-settings.go:103 | two bytes survive the trip through a group padded with one '=' |
| Base64.SingleRoundTrip | cmd/objects/system-settings.go:103 | one byte survives the trip through a group padded with "==" |
| Base64.DecodeGroupsOfEncode | cmd/objects/system-settings.go:103 | decoding undoes the encoder group by group |
| Base64.DecodeEncode | cmd/objects/system-settings.go:103 | decoding the padded encoding of any bytes gives them back (section 4 of RFC 4648) |
| Base64.DecodeNeedsGroups | cmd/objects/system-settings.go:103 | whatever decodes comes in whole groups of four once its line breaks are gone |
| Base64.DecodedLength | cmd/objects/system-settings.go:103 | n groups decode to between 3n-2 and 3n bytes |
| Base64.ForeignCharRejected | cmd/objects/system-settings.go:103 | a character outside the alphabet, '=' and line breaks makes decoding fail |
| Base64.DecodeExample | cmd/objects/system-settings.go:103 | "YWRtaW4=" decodes to "admin" |
| Base64.BreakIgnored | cmd/objects/system-settings.go:103 | a newline anywhere changes nothing in what the text decodes to |
| Base64.RejectUnpadded | cmd/objects/system-settings.go:103-106 | a missing '=' is an error |
| Base64.RejectForeign | cmd/objects/system-settings.go:103-106 | "admin!" is an error |
| SystemSettings.BytesText | cmd/objects/system-settings.go:104 | the decoded bytes shown one character per byte |
| SystemSettings.ToText | cmd/objects/system-settings.go:75-121 | the header unless no-headers is set, the footer exactly when decoding, and one row per setting in iteration order |
| SystemSettings.RowFor | cmd/objects/system-settings.go:99-114 | the row of one setting, as Row gives it |
| SystemSettings.OneRowPerSetting | cmd/objects/system-settings.go:98-116 | the table has exactly as many rows as there are settings |
| SystemSettings.PlainRows | cmd/objects/system-settings.go:111-113 | without decoding, every row is the key and value as stored |
| SystemSettings.OtherKeysVerbatim | cmd/objects/system-settings.go:101 | settings other than the five credentials are never decoded |
| SystemSettings.MarkedIffDecoded | cmd/objects/system-settings.go:101-109 | a key is marked with " *" exactly when decoding is on, the key is a credential and its value decodes |
| SystemSettings.EncodedCredentialShown | cmd/objects/system-settings.go:101-107 | a credential stored as the encoding of some bytes is shown as those bytes, marked |
| SystemSettings.UnpaddedCredentialVerbatim | cmd/objects/system-settings.go:102-109 | a value whose length is not a multiple of four is shown as stored |
| Logs.AllOrDefault | cmd/get/get_logs.go:84-89 | --all clears the selector; otherwise the --selector value is used |
| Logs.SelectorFlag | cmd/get/get_logs.go:207 | the selector is the given one, or "app=hbase" when the flag is absent |
| Logs.SelectorChoice | cmd/get/get_logs.go:55 | the selector used: "" with --all, else the flag value, else "app=hbase" |
| Logs.LastMatchNamespaceIsLast | cmd/get/get_logs.go:120-124 | the namespace is that of the last cluster with the name, and "" exactly when none has it |
| Logs.GetDBNamespace | cmd/get/get_logs.go:105-130 | a failed prompt or listing is returned as its error; otherwise the last matching namespace, or the not-found error |
| Logs.RemoveAllEffect | cmd/get/get_logs.go:94 | os.RemoveAll keeps every entry outside the subtree and, inside it, exactly the protected entries and the directories above them; kept entries keep their contents |
| Logs.RemoveAllKeepsShape | cmd/get/get_logs.go:94 | what os.RemoveAll leaves is still a tree: every kept entry's parent is a kept directory |
| Logs.ContainerLogCount | cmd/get/get_logs.go:178-202 | the reported count is the bytes copied when the file opens and the copy finishes, otherwise 0; a file that cannot be created leaves the tree alone, and a stream that cannot be opened leaves an empty file |
| Logs.Files | cmd/get/get_logs.go:165-172 | one "name.log" per container inside the sub-directory, in list order |
| Logs.TargetsShape | cmd/get/get_logs.go:153-173 | a single-container pod writes one "pod.log" file in the output directory; any other pod writes one file per container, init containers last, in its own sub-directory |
| Logs.FileSystem.constructor | cmd/get/get_logs.go:68 | the file system starts as the tree and permissions given |
| Logs.FileSystem.RemoveAll | cmd/get/get_logs.go:94 | fails exactly when a protected entry lies in the subtree; deletes what it can either way, leaving the tree RemoveAllEffect describes |
| Logs.FileSystem.Mkdir | cmd/get/get_logs.go:98 | fails exactly when the path is taken, protected or has no parent directory; otherwise a directory is added there |
| Logs.FileSystem.OpenFile | cmd/get/get_logs.go:180 | fails exactly when the file cannot be created; otherwise an empty file is there |
| Logs.FileSystem.Copy | cmd/get/get_logs.go:196 | the file holds what was written, and the copy fails exactly on a stream error |
| Logs.FileSystem.MakeDirectory | cmd/get/get_logs.go:92-102 | the tree and error are those of clearing the path with the partial os.RemoveAll and making a fresh directory there |
| Logs.FileSystem.StreamContainerLog | cmd/get/get_logs.go:178-202 | the tree and count are those ContainerLogCount describes |
| Logs.FileSystem.StreamContainers | cmd/get/get_logs.go:165-172 | the container loops run every target in turn and return each call's count |
| Logs.FileSystem.StreamLog | cmd/get/get_logs.go:153-175 | the tree and report are those of handling one pod, including what a failed removal of its sub-directory deleted before the pod was skipped |
| Logs.FileSystem.CollectPods | cmd/get/get_logs.go:72-79 | every listed pod is handled in listing order |
| Logs.FileSystem.CollectLogs | cmd/get/get_logs.go:43-80 | the steps run in the source's order and each failure ends the command exactly when the steps before it succeeded: the namespace lookup (with getDBNamespace's error), the kube client, the pod listing with the chosen selector (with its error), then the output directory (the tree is then what the failed makeDirectory left); the earlier failures touch no file; on completion the namespace is getDBNamespace's, the selector is allOrDefault's and every listed pod is collected into the fresh directory |
| LogsProperties.AncestorsPresent | cmd/get/get_logs.go:92-102 | in a well-formed tree every ancestor of an entry is present |
| LogsProperties.NothingBelowAbsent | cmd/get/get_logs.go:92-102 | nothing lies below a path that is absent from a well-formed tree |
| LogsProperties.RemoveAllOutcome | cmd/get/get_logs.go:94 | os.RemoveAll changes nothing outside the subtree, keeps every protected entry in it, keeps the path itself exactly when it fails, and removes the whole subtree when nothing in it is protected |
| LogsProperties.MakeDirectoryOutcome | cmd/get/get_logs.go:92-102 | the directory is made exactly when the path can be cleared, is not protected and has a parent directory; it is then an empty directory; a failed removal keeps the path and, below it, exactly the protected entries and the directories above them, with their contents; a failed mkdir leaves nothing at or below the path; the result is still a tree |
| LogsProperties.MakeDirectoryStaysInside | cmd/get/get_logs.go:92-102 | nothing outside the path's subtree changes |
| LogsProperties.MakeDirectoryOnFreePath | cmd/get/get_logs.go:98-101 | a free, unprotected path under an existing directory is always made |
| LogsProperties.ContainerLogOutcome | cmd/get/get_logs.go:178-202 | only the container's file changes, and the count is what it holds after a finished copy |
| LogsProperties.TargetsStayInside | cmd/get/get_logs.go:165-172 | the container loops change nothing outside the sub-directory |
| LogsProperties.TargetsIntoFreshDirectory | cmd/get/get_logs.go:165-172 | into a fresh directory, every target file is written with its container's stream and counted |
| LogsProperties.PodPath | cmd/get/get_logs.go:155-160 | each pod writes one entry directly in the output directory |
| LogsProperties.SingleContainerPod | cmd/get/get_logs.go:156-158 | a single-container pod depends only on its default stream, and writes "pod.log" |
| LogsProperties.PodReportPath | cmd/get/get_logs.go:153-175 | the report of a pod names the path streamLog wrote to |
| LogsProperties.PodStaysInside | cmd/get/get_logs.go:153-175 | a pod's changes stay at its own path or below it |
| LogsProperties.LogNameInjective | cmd/get/get_logs.go:166 | distinct containers get distinct log file names |
| LogsProperties.Counts | cmd/get/get_logs.go:167-171 | one count per container, each the bytes its finished copy reported |
| LogsProperties.TargetsAppend | cmd/get/get_logs.go:165-172 | running two lists of targets one after the other is running their concatenation |
| LogsProperties.FilesDistinct | cmd/get/get_logs.go:166-170 | the log files of distinct containers are distinct files directly inside the sub-directory |
| LogsProperties.FilesAreFresh | cmd/get/get_logs.go:159-170 | in a freshly made sub-directory, no log file exists yet |
| LogsProperties.ContainerLoopsAsOne | cmd/get/get_logs.go:165-172 | the regular and init container loops together are one run over all of the pod's log files |
| LogsProperties.ContainerLoopFiles | cmd/get/get_logs.go:165-172 | the loops leave one file per container, holding that container's stream |
| LogsProperties.ContainerLoopCounts | cmd/get/get_logs.go:165-172 | the loops collect every container's finished copy count, in list order |
| LogsProperties.MultiContainerPod | cmd/get/get_logs.go:159-173 | a pod with a sub-directory gets one file per container, and its report carries both the logged amount and the bytes copied |
| LogsProperties.LoggedAmountDropsRegularCounts | cmd/get/get_logs.go:165-168 | as written, with regular containers of 10 and 5 bytes the logged amount is 5, not the 15 copied |
| LogsProperties.TotalAmountCountsEveryContainer | cmd/get/get_logs.go:165-174 | the corrected amount is the sum of every container's count; the figure as written never exceeds it, and equals it exactly when every regular container but the last copied nothing |
| LogsProperties.SumAppend | cmd/get/get_logs.go:165-171 | the sum of joined counts is the sum of their sums |
| LogsProperties.CollectReportsEveryPod | cmd/get/get_logs.go:140-150 | one report per pod, in listing order, each naming that pod's path |
| LogsProperties.CollectStaysInside | cmd/get/get_logs.go:68-79 | collecting never changes anything outside the output directory |

## Left out

- I/O is left out: the Cloud Manager REST calls, the Kubernetes client, the file read of
  `--file`, printing and logging. Their results are inputs. A fatal exit is an outcome
  value.
- Decoding JSON and YAML (`json.Unmarshal`, `yaml.Unmarshal`, `yaml.YAMLToJSON`) is left
  out. Each is a function parameter: `isJson`, `fromYaml`, `decode` and `parse`.
- The survey library is left out. The option picked, or the prompt's error, is an input.
- Go's map iteration order is an input sequence `order`. It covers every key once, in
  whatever order the run takes.
- The clock is the `now` parameter, in nanoseconds since Go's zero Time.
- Semver range gating (`RequirementMet`, `semver.ParseRange`) is left out. It only decides
  how a result is displayed.
- CA certificates, the viper settings plumbing and the cobra command tree are left out.
  Viper values are modelled as strings.
- `strings.ToLower`, `ToUpper` and `Title` are modelled on ASCII letters only. Non-ASCII
  case mapping never produces any of the accepted words.
- `time.Parse(time.RFC3339, …)` is modelled on the fast path Go takes for that layout.
  Leap seconds and the slow-path fallback are not modelled.
- Base64 and `string(data)` are modelled over characters, one byte per character.
  Multi-byte UTF-8 is not modelled.
- Paths are sequences of components, with no cleaning of "." or "..". The file system's
  permissions are an abstract set of protected paths.
- Logs.FileSystem.StreamContainerLog: the streams of the Kubernetes API are given as
  outcomes (copied bytes, a copy error or an open error). Goroutines and channels are
  serialized. The log output is the report value.
- Urls.GenerateOutputFromNamedURLs: the order the sort leaves is returned as a ghost
  value. It is proved sorted and a permutation, but the exact order `sort.Slice` gives
  equal names is not modelled.
- CreateDatabase.DatabaseRequest: the request is one value of all its fields.
- CreateDatabase.SkelFormat: generateSkel's printing is reduced to the format it picks.
- CreateDatabase.Run: the submission call and its display are outside the model.
- Override.GetResourceGuard: the YAML conversion of the response is an input document.
- DefaultCR.ValidateDefaultCR: the copy in `cmd/apply/apply_default-cr.go:28-54` is the
  same function and is not modelled twice.

## Findings

| source | as written | input that shows it | evidently intended | confidence | as-written member | corrected member |
|---|---|---|---|---|---|---|
| cmd/get/get_logs.go:167 | the regular-container loop assigns `amount = streamContainerLog(...)`, so each container's count replaces the last | a pod with two regular containers whose logs copy 10 and 5 bytes: the amount logged is 5 | `amount +=`, as the init-container loop does, giving 15 | not executed | LogsProperties.LoggedAmountDropsRegularCounts | LogsProperties.TotalAmountCountsEveryContainer |
| cmd/get/get_urls.go:52-53 | the `--prod` branch returns `generateBuildURLs()` | `get urls --prod` | the production block `generateProdURLs()`, as the command's help text says only those urls are shown | not executed | Urls.ProdFlagGivesBuildURLs | Urls.IntendedFlagOutput |
| common/functions.go:65 | on a key that `strconv.ParseInt` rejects, the function returns `marshErr`, which is nil at that point | a map of versions with the key "latest" beside integer keys: the result is an empty list and no error | return the conversion error `cnverr` | not executed | CommonFunctions.NonIntegerKeyHidden | CommonFunctions.IntendedRestructuredOk |
