# linkedin-cli core, modelled in Dafny

This project models the core of `linkedin-cli`, a command-line client for the
Linked API service. The service drives a LinkedIn account through remote
"workflows"; the client starts a workflow and waits for its response.

The model covers these parts of the client:

- **Configuration store** (`ConfigStore`). This is the configuration file with
  its accounts and the active account. It covers the legacy single-account
  format, its migration, and every store operation.
- **Token resolution** (`AuthManager`).
- **Exit codes** (`ExitCodes`) and the **error mapper** (`ErrorHandler`).
- **Output formatting** (`Formatter`, `FieldSelector`). This covers the JSON
  envelope, `--fields`, `--quiet`, and the human-readable rendering.
- **Workflow runner** (`WorkflowRunner`). It calls `execute` and then
  `result`, and writes progress lines.
- **Shared command frame** (`BaseCommand`). It builds the client and holds the
  `try`/`catch` around each command.
- **Commands with logic of their own.** These are `setup` (with its masked
  token prompt), `reset`, the `account` commands, the fetch, search and list
  commands with their parameter builders, `post create`, the two
  `message get` commands, and `workflow status`.

The model makes these choices:

- **The file.** The configuration file is a value `ConfigStore.Disk`. It is
  missing, unparsable, in the legacy format, or multi-account. The
  `ConfigStore.Store` class holds it, and its methods update it in place.
- **Standard streams.** Output to standard output and standard error is the
  `Process.Console` class. Its two write logs are fields, and so is the exit
  code, which is set once.
- **The remote service.** `LinkedApi.Service` answers each call with an
  arbitrary reply function. The reply depends on the call and on how many calls
  came before it. A ghost trace records every call made, so the model states
  which calls a command makes and in what order.
- **What each command promises.** Each command is a method. Its contract
  states the calls it makes, what it writes to each stream, its exit code, and
  the new contents of the file. Specification functions define these, and
  lemmas prove the properties of those functions.
- **Exceptions in the renderer.** The human rendering reads properties of
  `null` rows and items, and JavaScript throws a `TypeError` there. A
  rendering is a `Formatter.Rendered` value: the lines written before the
  throw, and the message of the thrown error. The command's `catch` hands that
  error to `handleError`, like any other.

## Model

| member | source | states |
|---|---|---|
| ExitCodes.Value | src/core/errors/exit-codes.ts:1-11 | the nine names have the values 0 to 8 in the listed order, and only SUCCESS is 0 |
| ExitCodes.NameOf | src/core/errors/exit-codes.ts:1-11 | every value from 0 to 8 belongs to some name |
| ExitCodes.ValueInjective | src/core/errors/exit-codes.ts:1-11 | distinct names have distinct values |
| ExitCodes.CodesAreExactlyTheValues | src/core/errors/exit-codes.ts:13 | the exit-code type is exactly the integers 0 to 8 |
| FieldSelector.FieldList | src/core/output/field-selector.ts:2 | the requested fields are the comma-separated pieces of the flag, each trimmed, with one more piece than there are commas |
| FieldSelector.Picked | src/core/output/field-selector.ts:12-14 | a non-object or `null` input gives the empty object, and the result is always an object; its members are `PickedMembers`, whose content `PickedLemma` and whose key order `PickedOrder` state |
| FieldSelector.PickedMembers | src/core/output/field-selector.ts:19-23 | the definition of the loop's result: each requested field the object has is assigned to the result with `Json.Put`, in request order |
| FieldSelector.PickedSnoc | src/core/output/field-selector.ts:19-23 | one more requested field is assigned with `Json.Put` exactly when the object has it, and otherwise changes nothing |
| FieldSelector.FirstRequest | src/core/output/field-selector.ts:19-23 | the position of the first request for a field: it is requested there and not before |
| FieldSelector.FirstRequestSnoc | src/core/output/field-selector.ts:19-23 | a later request does not move the first request of a field already requested |
| FieldSelector.RequestedBefore | src/core/output/field-selector.ts:19-23 | the definition of two neighbouring keys in assignment order: unless one is an index key, the first was requested first |
| FieldSelector.RequestOrder | src/core/output/field-selector.ts:19-23 | the definition of assignment order for a key sequence, stated for neighbours |
| FieldSelector.RequestOrderPairs | src/core/output/field-selector.ts:19-23 | in a key sequence in JavaScript order and in assignment order for neighbours, any two keys that are no index keys come in the order of their first request |
| FieldSelector.PickedOrder | src/core/output/field-selector.ts:19-23 | the picked object's keys are in JavaScript's property order (index keys first, ascending) and its other keys follow the order of their first request |
| FieldSelector.PutKeepsRequests | src/core/output/field-selector.ts:21 | one assignment of the loop keeps both orders: a present key stays in place, a new index key goes to its ascending place, another new key is appended last |
| FieldSelector.RequestsWiden | src/core/output/field-selector.ts:19-23 | requesting one more field keeps the order of the keys already assigned |
| FieldSelector.RequestAppend | src/core/output/field-selector.ts:21 | appending a key requested after every present key keeps the request order |
| FieldSelector.InsertKeepsRequests | src/core/output/field-selector.ts:21 | inserting an index key keeps the order of the other keys |
| FieldSelector.IndexFieldComesFirst | src/core/output/field-selector.ts:19-23 | `--fields b,1` on an object with keys `1` and `b` gives `1` before `b`, as JavaScript orders an index key first |
| FieldSelector.IndexFieldsAscend | src/core/output/field-selector.ts:19-23 | `--fields 10,2` gives `2` before `10`: index keys ascend numerically whatever the request order |
| FieldSelector.PickedLemma | src/core/output/field-selector.ts:16-26 | a key is in the picked object exactly when it was requested and the input is an object having it, with the input's value |
| FieldSelector.PickedKeys | src/core/output/field-selector.ts:19-23 | the output's keys are exactly the requested keys the input has (`field in record`), with their original values |
| FieldSelector.PickedIdempotent | src/core/output/field-selector.ts:12-26 | picking the same fields from a picked value changes nothing |
| FieldSelector.NothingPickedFromEmpty | src/core/output/field-selector.ts:19-23 | nothing is picked from the empty object |
| FieldSelector.ReplayPicked | src/core/output/field-selector.ts:19-23 | picking any subset of the fields again from a picked object gives what picking them from the original gives |
| FieldSelector.PickFields | src/core/output/field-selector.ts:12-26 | the loop over the fields builds exactly the picked object, so its members are in the order `PickedOrder` states |
| FieldSelector.SelectFields | src/core/output/field-selector.ts:1-10 | an array is projected element by element with its length kept; any other value is projected as a whole, each with `Picked` and so in its key order |
| FieldSelector.SelectFieldsIdempotent | src/core/output/field-selector.ts:1-10 | selecting the same fields twice equals selecting them once |
| WorkflowRunner.WorkflowCalls | src/core/workflow/workflow-runner.ts:16-30 | `execute` is called once with the params; `result` is called only if `execute` returned, and with that workflow id; the outcome is `result`'s answer or `execute`'s error |
| WorkflowRunner.QuietRunIsSilent | src/core/workflow/workflow-runner.ts:12-27 | quiet mode writes no progress line and makes the same calls, with the same outcome |
| WorkflowRunner.ProgressLines | src/core/workflow/workflow-runner.ts:12-27 | without quiet, "Executing...", "Workflow started: id" and "Waiting for result..." appear in order, each after the step before it, and "Done." appears exactly when the result arrived |
| WorkflowRunner.RunWorkflow | src/core/workflow/workflow-runner.ts:7-30 | the service trace grows by the run's calls, standard error by its progress lines, and the result is the run's; standard output and the exit code are untouched |
| WorkflowRunner.WorkflowRun | src/core/workflow/workflow-runner.ts:7-30 | the definition of one run: `execute`, then `result` on its id, with the progress lines; stated by WorkflowCalls, QuietRunIsSilent and ProgressLines |
| WorkflowRunner.RunVoidWorkflow | src/core/workflow/workflow-runner.ts:32-38 | the same run as `runWorkflow` |
| WorkflowRunner.WorkflowOutcome | src/core/workflow/workflow-runner.ts:23-29 | a thrown error becomes a failed ending; a response becomes formatted output of its data and errors; calls and progress lines are kept |
| WorkflowRunner.RunAndFormat | src/core/workflow/workflow-runner.ts:7-30 | a command body that runs one workflow and formats its result performs exactly that workflow's outcome |
| WorkflowRunner.RanWorkflow | src/core/workflow/workflow-runner.ts:7-30 | the definition of a command that ran one workflow: it performed the outcome of `execute` then `result` on the given operation and parameters, with progress lines unless quiet |
| AuthManager.NotFoundMessage | src/core/auth/auth-manager.ts:24 | the not-found error names the requested account in quotes |
| AuthManager.OverrideWins | src/core/auth/auth-manager.ts:19-31 | a matching override gives the tokens of the first account whose name matches, whichever account is active |
| AuthManager.OverrideWithoutMatchFails | src/core/auth/auth-manager.ts:20-25 | an override that matches no account is an error naming it, with no fallback to the active account |
| AuthManager.NoOverrideReadsConfig | src/core/auth/auth-manager.ts:33-42 | without a (non-empty) override the result is readConfig's tokens, or the fixed authentication message when there are none |
| AuthManager.ResolveAuthTokens | src/core/auth/auth-manager.ts:19-43 | the result is the resolution over the loaded store, and the file changes at most by the legacy migration |
| AuthManager.Resolve | src/core/auth/auth-manager.ts:19-43 | the definition of the resolution: a given override selects the first account whose name contains it case-insensitively, or is the not-found error; otherwise readConfig's tokens or the no-tokens message; stated by the three lemmas above |
| AuthManager.Given | src/core/auth/auth-manager.ts:20 | the definition of the truthiness of an optional string flag: present and not empty |
| ConfigStore.Load | src/core/auth/config-store.ts:35-73 | a missing, unparsable or account-less file loads as nothing; a loaded store has at least one account; a multi-account file loads as itself |
| ConfigStore.Rewritten | src/core/auth/config-store.ts:46-61 | only a legacy file is rewritten, as its migrated store, and the rewrite loads the same |
| ConfigStore.LegacyMigration | src/core/auth/config-store.ts:47-60 | a legacy file loads as one account named "default" that is active, and its migration is stable |
| ConfigStore.RewrittenIdempotent | src/core/auth/config-store.ts:35-73 | a second load neither migrates again nor changes the result |
| ConfigStore.IndexOfId | src/core/auth/config-store.ts:97-99 | the position of the first account with the identification token, or none when no account has it |
| ConfigStore.IndexOfName | src/core/auth/config-store.ts:217-219 | the position of the first account whose lower-cased name contains the lower-cased query, or none |
| ConfigStore.NameMatches | src/core/auth/config-store.ts:217-219 | the definition of the case-insensitive match of `findAccountByName`: the lower-cased query occurs in the lower-cased name |
| ConfigStore.TokensOf | src/core/auth/config-store.ts:109-118 | the definition of the tokens `readConfig` returns for an account: its Linked API token and its identification token |
| ConfigStore.CurrentTokens | src/core/auth/config-store.ts:90-119 | the tokens of the first account whose identification token is the active one, when some account is; otherwise those of the first account; nothing only without a store |
| ConfigStore.Migrated | src/core/auth/config-store.ts:47-60 | the definition of the migrated store: one account named `default` holding the legacy tokens, and active |
| ConfigStore.AfterAdd | src/core/auth/config-store.ts:121-136 | the definition of the store addAccount writes; stated by AddReplacesOrAppends |
| ConfigStore.RemoveCurrent | src/core/auth/config-store.ts:138-163 | the definition of what removeCurrentAccount removes and keeps; stated by RemoveCurrentSpec |
| ConfigStore.Rename | src/core/auth/config-store.ts:222-240 | the definition of the store renameAccount writes; stated by RenameChangesOnlyName |
| ConfigStore.AccountIds | src/core/auth/config-store.ts:97-99 | the identification tokens of the accounts, in order |
| ConfigStore.ReadConfigUndefinedOnlyWithoutStore | src/core/auth/config-store.ts:90-107 | readConfig gives nothing exactly when the file holds no store |
| ConfigStore.AddReplacesOrAppends | src/core/auth/config-store.ts:121-136 | adding replaces in place the account with the same identification token, or appends; the other accounts keep their order; the added account becomes active |
| ConfigStore.AddThenReadConfig | src/core/auth/config-store.ts:121-136 | after addAccount, readConfig resolves the added account's tokens |
| ConfigStore.AddIdempotent | src/core/auth/config-store.ts:121-136 | adding the same account twice writes what adding it once writes |
| ConfigStore.RemoveCurrentSpec | src/core/auth/config-store.ts:138-163 | removal fails exactly without a store or when no account is active; otherwise it removes exactly the active entry, keeps the rest in order, and makes the first remaining account active (or none) |
| ConfigStore.RemoveThenReadConfig | src/core/auth/config-store.ts:138-163 | after removing the active account, readConfig resolves the first remaining account |
| ConfigStore.RemoveLastAccount | src/core/auth/config-store.ts:155-161 | removing the only account writes an empty store, which then loads as nothing |
| ConfigStore.Listing | src/core/auth/config-store.ts:177-188 | every account in order, flagged current exactly when its identification token is the active one |
| ConfigStore.RemoveThenFirstCurrent | src/core/auth/config-store.ts:155-157 | after a removal that leaves accounts, the first listed entry is the current one |
| ConfigStore.SetCurrent | src/core/auth/config-store.ts:190-208 | switching succeeds exactly when some account has the token; it changes only the active account |
| ConfigStore.SwitchThenReadConfig | src/core/auth/config-store.ts:190-208 | after switching to an account, readConfig resolves that account's tokens |
| ConfigStore.RenameChangesOnlyName | src/core/auth/config-store.ts:222-240 | renaming succeeds exactly when some account has the token; only the name of the first such account changes |
| ConfigStore.IndexOfIdSameTokens | src/core/auth/config-store.ts:229-231 | the search by identification token depends on the tokens alone, so a rename does not move it |
| ConfigStore.SearchById | src/core/auth/config-store.ts:97-99 | the linear search returns the first account with the token |
| ConfigStore.FirstIndexOfId | src/core/auth/config-store.ts:124-126 | the search result is the first position with the token |
| ConfigStore.SearchByName | src/core/auth/config-store.ts:217-219 | the linear search returns the first account whose name matches |
| ConfigStore.FirstIndexOfName | src/core/auth/config-store.ts:219 | the name search result is the first position that matches |
| ConfigStore.Store.ReadRawConfig | src/core/auth/config-store.ts:35-73 | returns the load of the file and leaves it rewritten (migrated if it was legacy) |
| ConfigStore.Store.SaveRawConfig | src/core/auth/config-store.ts:75-88 | the file afterwards holds exactly the given store |
| ConfigStore.Store.ReadConfig | src/core/auth/config-store.ts:90-119 | returns the resolved tokens of the loaded store; the file changes at most by migration |
| ConfigStore.Store.AddAccount | src/core/auth/config-store.ts:121-136 | the file afterwards holds the store after the addition, starting from the empty store when there was none |
| ConfigStore.Store.RemoveCurrentAccount | src/core/auth/config-store.ts:138-163 | returns the removed entry and writes the remaining store, or returns nothing and writes nothing beyond migration |
| ConfigStore.Store.RemoveAllAccounts | src/core/auth/config-store.ts:165-175 | returns the number of accounts there were, and writes the empty store when there was a store |
| ConfigStore.Store.ListAccounts | src/core/auth/config-store.ts:177-188 | returns the listing of the loaded store |
| ConfigStore.Store.SetCurrentAccount | src/core/auth/config-store.ts:190-208 | returns true and writes the switched store exactly when some account has the token |
| ConfigStore.Store.FindAccountByName | src/core/auth/config-store.ts:210-220 | returns the first account whose name contains the query, ignoring case |
| ConfigStore.Store.RenameAccount | src/core/auth/config-store.ts:222-240 | returns true and writes the renamed store exactly when some account has the token |
| ConfigStore.Store.DeleteConfig | src/core/auth/config-store.ts:242-251 | reports whether the file existed, and afterwards there is none |
| ErrorHandler.TimeoutMessage | src/core/errors/error-handler.ts:17 | the timeout message names the workflow id, so the user can resume with `workflow status --wait` |
| ErrorHandler.MapLinkedApiErrorToCliError | src/core/errors/error-handler.ts:12-71 | a timeout maps to TIMEOUT with its workflow id; otherwise each group of error types maps to its code (both directions), unknown types map to GENERAL, type and message are kept, and SUCCESS and RATE_LIMIT never occur |
| ErrorHandler.ErrorRecord | src/core/errors/error-handler.ts:73-82 | the record holds `error` and `message`, and `workflowId` exactly when it is set and non-empty, and no other key |
| ErrorHandler.WriteErrorToStderr | src/core/errors/error-handler.ts:73-84 | one compact JSON line of the record is appended to standard error, and nothing else changes |
| BaseCommand.Classify | src/base-command.ts:56-80 | library errors are mapped; any other `Error` keeps its message under `unexpectedError`; a non-Error gets the fixed message; the code is never SUCCESS or RATE_LIMIT |
| BaseCommand.HandleError | src/base-command.ts:56-80 | writes the classified error record to standard error and exits with its code |
| BaseCommand.BuildAuthenticatedClient | src/base-command.ts:41-54 | on resolution, returns the tokens and writes nothing; otherwise writes the error message and exits AUTH |
| BaseCommand.EndExit | src/base-command.ts:56-80 | an exit code is set exactly when the body threw or `formatOutput` threw, and it is never SUCCESS |
| BaseCommand.Finish | src/base-command.ts:56-80 | a finished body produces the formatted output, and a `TypeError` thrown while rendering it is handled by `handleError`; a thrown body produces the error record and its exit code |
| BaseCommand.Escaped | src/base-command.ts:56-80 | the catch receives the body's error when the body threw, and otherwise the `TypeError` formatOutput threw, exactly when it threw |
| BaseCommand.RenderingFailureIsUnexpected | src/base-command.ts:56-80 | a `TypeError` thrown while rendering the output is written as one `unexpectedError` record with its message, and the command exits GENERAL |
| BaseCommand.EndStdout | src/base-command.ts:56-80 | the definition of what an ending writes to standard output: the formatted output when the body finished, nothing when it threw |
| BaseCommand.EndStderr | src/base-command.ts:56-80 | the definition of what an ending writes to standard error: the error record of what reached `handleError`, or nothing |
| BaseCommand.Performed | src/base-command.ts:56-80 | the definition of a command that performed an outcome: exactly its calls, its progress lines then the ending's error record on standard error, the ending's output on standard output, and the ending's exit code; each command method ensures it |
| BaseCommand.Unauthenticated | src/base-command.ts:41-54 | the definition of a failed client construction: no call, nothing on standard output, the resolution message on standard error and exit code AUTH |
| Formatter.SelectedData | src/core/output/formatter.ts:53-57 | data is projected by `--fields` only when the flag is non-empty and data is present; otherwise it is kept |
| Formatter.EnvelopeDecision | src/core/output/formatter.ts:32-69 | machine-readable output is exactly one pretty JSON envelope, whatever `--quiet` says, and never throws; `success` is false exactly for a failure, which carries the first error's type and message, and otherwise `data` is the selected data or `null` |
| Formatter.OnlyFirstErrorRendered | src/core/output/formatter.ts:34-35 | only the first action error affects the output |
| Formatter.QuietSuppressesOnlyTheErrorLine | src/core/output/formatter.ts:44-48 | on a terminal, `--quiet` removes the `Error: message (type)` line and does not change a data rendering |
| Formatter.VoidOutputIsOutputWithoutData | src/core/output/formatter.ts:71-113 | formatVoidOutput writes what formatOutput writes without data, except that a terminal gets the success message unless quiet |
| Formatter.Width | src/core/output/formatter.ts:184-196 | a column is at least as wide as its header |
| Formatter.WidthIsWidest | src/core/output/formatter.ts:184-196 | a column's width is at least every cell's length, and equals the header's length or some cell's length |
| Formatter.Widths | src/core/output/formatter.ts:181-196 | there is a width for exactly the first row's keys |
| Formatter.TableColumnsAligned | src/core/output/formatter.ts:198-207 | in the header, the separator and every row, each column's cell is padded to exactly the column's width |
| Formatter.HeaderLine | src/core/output/formatter.ts:198 | the definition of the header: each key padded to its column's width, joined by two spaces; `TableColumnsAligned` states its alignment |
| Formatter.SeparatorLine | src/core/output/formatter.ts:199 | the definition of the separator: a run of `-` as wide as each column, joined by two spaces |
| Formatter.RowLine | src/core/output/formatter.ts:205 | the definition of a data line: each cell padded to its column's width, joined by two spaces |
| Formatter.RowLines | src/core/output/formatter.ts:203-207 | the definition of the data lines: one line per row, in order |
| Formatter.RowLinesShape | src/core/output/formatter.ts:198-207 | the table body is one line per row, in row order, each the row's padded cells |
| Formatter.RowLinesLength | src/core/output/formatter.ts:203-207 | the row loop writes exactly one line per row |
| Formatter.RowLineAt | src/core/output/formatter.ts:203-207 | the line written at position i is the padded cells of row i |
| Formatter.TableShape | src/core/output/formatter.ts:165-208 | no rows give the single line `(no results)`; a non-object first row gives one `String(row)` line per row; otherwise the columns are the first row's keys, the table throws `Cannot read properties of null` on the first column, having written nothing, exactly when there is a column and some row is `null`, and else it is a header, a separator and one line per row |
| Formatter.ColumnWidths | src/core/output/formatter.ts:182-196 | the width loops throw on the first column exactly when there is a column and some row is `null`; otherwise the dictionary they build is the widths of the columns |
| Formatter.HeaderWidths | src/core/output/formatter.ts:184-186 | the first loop gives a width for exactly the first row's keys, each its key's length |
| Formatter.WidenByRow | src/core/output/formatter.ts:188-196 | visiting one more row throws on the first column exactly when there is a column and the row is `null`; otherwise it widens every column to the width over the rows seen so far, and adds no key |
| Formatter.WidthSnoc | src/core/output/formatter.ts:191-194 | one more row widens a column to the larger of its width so far and that row's cell length |
| Formatter.PrimitiveRows | src/core/output/formatter.ts:173-179 | a table whose first row is not an object prints each row as one `String(row)` line |
| Formatter.FormatTable | src/core/output/formatter.ts:165-208 | writes `(no results)` for no rows, one line per row for primitive rows, and otherwise the header, the separator and one line per row, or nothing and the `TypeError` of a `null` row |
| Formatter.Indent | src/core/output/formatter.ts:134 | the prefix has exactly the indentation's length |
| Formatter.IndentedLinesConcat | src/core/output/formatter.ts:136-162 | the blocks of successive entries keep the indentation |
| Formatter.IndentedLinesDeeper | src/core/output/formatter.ts:149 | a block indented more deeply is also indented by less |
| Formatter.PrefixedLine | src/core/output/formatter.ts:142 | a line starting with the indentation prefix is indented |
| Formatter.KeyValueIndented | src/core/output/formatter.ts:133-163 | every line formatKeyValue writes at indentation n, up to a throw, starts with n spaces and ends with a newline |
| Formatter.EntryIndented | src/core/output/formatter.ts:136-162 | the lines of the remaining entries, up to a throw, are all indented by n |
| Formatter.MemberIndented | src/core/output/formatter.ts:137-161 | the lines of one entry (skipped null, list header and items, nested object or scalar), up to a throw, are indented by n |
| Formatter.MemberShape | src/core/output/formatter.ts:137-161 | a `null` entry writes nothing, an empty array writes its header and `(empty)`, an object writes its header and then its own entries two columns deeper and throws when they do, a scalar writes one `key: value` line |
| Formatter.ScalarEntriesLines | src/core/output/formatter.ts:133-163 | the entries of an object holding only scalars, from any position on, are one `key: value` line each, in order, and never throw |
| Formatter.ScalarObjectLines | src/core/output/formatter.ts:133-163 | formatKeyValue of an object holding only scalars writes exactly one `key: value` line per member, in member order, and does not throw |
| Formatter.ItemsIndented | src/core/output/formatter.ts:147-150 | the `---` blocks of an array of objects, up to a throw, are indented by n |
| Formatter.FormatHumanOutput | src/core/output/formatter.ts:115-131 | writes nothing for no data or `null`, a table for an array, key-value lines for an object, and `String(data)` otherwise, and returns the `TypeError` a `null` table row or a reached `null` item throws |
| Formatter.FormatOutput | src/core/output/formatter.ts:19-69 | standard output grows by exactly the output the specification gives, up to the `TypeError` the human rendering throws, which is returned; standard error and the exit code are untouched |
| Formatter.OutputFailure | src/core/output/formatter.ts:19-69 | only the human rendering of data can throw: a failure response or machine-readable output never does |
| Formatter.OutputWrites | src/core/output/formatter.ts:19-69 | the definition of what formatOutput writes: the first error's rendering for a failure, else the success envelope when machine-readable, else the human rendering of the selected data up to its throw; its properties are the Formatter lemmas above |
| Formatter.HasActionError | src/core/output/formatter.ts:32 | the definition of a failure: some error and no truthy data |
| Formatter.ErrorWrites | src/core/output/formatter.ts:34-51 | the definition of a failure's rendering: the error envelope when machine-readable, else the `Error: message (type)` line unless quiet |
| Formatter.VoidWrites | src/core/output/formatter.ts:71-113 | the definition of what formatVoidOutput writes; related to OutputWrites by VoidOutputIsOutputWithoutData |
| Formatter.HumanWrites | src/core/output/formatter.ts:115-131 | the definition of formatHumanOutput: what it writes and what it throws, by the kind of the data |
| Formatter.Cell | src/core/output/formatter.ts:192 | the definition of `String(record[key] ?? '')`: a missing or `null` property is the empty cell |
| Formatter.TableWrites | src/core/output/formatter.ts:165-208 | the definition of formatTable's writes and throw; stated by TableShape |
| Formatter.KeyValueWrites | src/core/output/formatter.ts:133-163 | the definition of formatKeyValue's writes and throw; stated by KeyValueIndented, KeyValueFailure and ScalarObjectLines |
| Formatter.EntryWrites | src/core/output/formatter.ts:136-162 | the definition of the entry loop: each entry's block in order, stopping at the first that throws |
| Formatter.MemberWrites | src/core/output/formatter.ts:137-161 | the definition of one entry's block; stated by MemberShape and MemberFailure |
| Formatter.ItemBlocks | src/core/output/formatter.ts:147-150 | the definition of the item loop: a `---` line and the item's entries four columns deeper, stopping at the first item that throws |
| Formatter.ReachesNull | src/core/output/formatter.ts:133-163 | the definition of when formatKeyValue reads `null`: the value is `null`, or an entry is an object that reaches `null`, or an array whose first item is an object and some item reaches `null` |
| Formatter.KeyValueFailure | src/core/output/formatter.ts:133-163 | formatKeyValue throws exactly when it reaches `null`, always with the message of `Object.entries(null)` |
| Formatter.EntryFailure | src/core/output/formatter.ts:136-162 | the remaining entries throw exactly when one of them reaches `null` |
| Formatter.MemberFailure | src/core/output/formatter.ts:137-161 | one entry throws exactly when it is an object that reaches `null`, or an array whose first item is an object and one of whose items reaches `null`; `null`, scalars and lists of scalars never throw |
| Formatter.ItemsFailure | src/core/output/formatter.ts:147-150 | the items of an array of objects throw exactly when one of the remaining items reaches `null` |
| Formatter.NullItemThrows | src/core/output/formatter.ts:147-150 | a `null` item in a list whose first item is an object makes the entry throw `Cannot convert undefined or null to object` |
| Formatter.FormatVoidOutput | src/core/output/formatter.ts:71-113 | standard output grows by exactly the void output; standard error and the exit code are untouched |
| AccountList.TruncateToken | src/commands/account/list.ts:26-32 | a token of at most twelve characters is shown whole; a longer one as its first six characters, `...` and its last three |
| AccountList.TruncateIdempotent | src/commands/account/list.ts:26-32 | a shortened token has at most twelve characters and shortening it again changes nothing |
| AccountList.Marker | src/commands/account/list.ts:19 | the marker is `*` exactly for the active account |
| AccountList.Line | src/commands/account/list.ts:19-21 | an account's line starts with `*` exactly when the account is active, and ends with a newline |
| AccountList.Lines | src/commands/account/list.ts:18-22 | one line per listed account, in order |
| AccountList.ListingLines | src/commands/account/list.ts:11-22 | an empty listing means there are no accounts; otherwise there is one line per stored account, marked `*` exactly for the active one |
| AccountList.Run | src/commands/account/list.ts:10-23 | writes the setup hint for an empty store and the listing lines otherwise; changes the file at most by migration; never fails |
| AccountSwitch.Selected | src/commands/account/switch.ts:21 | the selected account is the first whose name contains the argument, ignoring case, and none when no name matches |
| AccountSwitch.SwitchResolves | src/commands/account/switch.ts:29 | after a switch, later commands resolve the tokens of the first account holding the selected account's identification token |
| AccountSwitch.Run | src/commands/account/switch.ts:19-31 | a name that matches nothing is reported on standard error with exit code 1, and the file is untouched; otherwise the selected account becomes active and the message names it |
| AccountRename.RenameKeepsTokens | src/commands/account/rename.ts:36-37 | renaming the selected account sets its name and keeps the order, every token, the active account and the resolved tokens |
| AccountRename.Run | src/commands/account/rename.ts:26-39 | a name that matches nothing is reported with exit code 1 and nothing is renamed; otherwise the account is renamed and the message gives the old and the new name |
| AccountRename.RenamedMessage | src/commands/account/rename.ts:38 | the definition of the message giving the old name and the new one |
| Reset.RemovedCountMessage | src/commands/reset.ts:27 | the count message ends in `s.` exactly when more than one account was removed |
| Reset.FindCurrent | src/commands/reset.ts:52 | the found entry is a current one from the list, and none is found only when no entry is current |
| Reset.NextIsFirstRemaining | src/commands/reset.ts:49-53 | after removing the active account with others left, the account reported as next is the first remaining one, which is now active |
| Reset.SwitchedMessage | src/commands/reset.ts:53 | the definition of the message naming the removed account and the account switched to |
| Reset.LastRemovedMessage | src/commands/reset.ts:55 | the definition of the message after removing the last account |
| Reset.NameOrUndefined | src/commands/reset.ts:53 | the definition of `${next?.name}`: the found account's name, or `undefined` when none was found; `NextIsFirstRemaining` shows an account is always found |
| Reset.RemoveCurrentMessage | src/commands/reset.ts:35-56 | the definition of the message without `--all`: no stored accounts, no active account, the switched message naming the first remaining account, or the no-accounts-remaining message; `Reset.Run` writes exactly this |
| Reset.Run | src/commands/reset.ts:20-57 | `--all` empties the store and reports the count, or that there was none; otherwise the active account is removed and the message names it and the new active account, or says that none was stored, none was active, or none remains |
| Params.CsvValue | src/commands/company/fetch.ts:89-94 | a list flag is sent as a JSON array |
| Params.CsvValueItems | src/commands/company/fetch.ts:89-94 | the array has one item per comma-separated piece, each piece trimmed |
| Params.TextParam | src/commands/company/fetch.ts:86-88 | a string flag is assigned exactly when it is given and non-empty |
| Params.NumberParam | src/commands/company/fetch.ts:83 | an integer flag is assigned exactly when it is given and not 0 |
| Params.CsvParam | src/commands/company/fetch.ts:89-94 | a list flag is assigned exactly when it is given and non-empty |
| Params.TrueParam | src/commands/company/fetch.ts:77-79 | a boolean flag assigns `true` exactly when it is set |
| Params.NonEmpty | src/commands/company/fetch.ts:96-97 | a nested record is assigned exactly when it has some key, and then as itself |
| Params.BuildLimitSince | src/commands/company/fetch.ts:107-110 | the two guarded assignments build the limit-and-since record |
| Params.LimitSinceContents | src/commands/company/fetch.ts:106-110 | the record holds `limit` and `since` exactly when each is truthy, and is non-empty exactly when one of them is |
| Params.BuiltAbsent | src/commands/company/fetch.ts:73-98 | a key that no assignment so far names is absent |
| Params.BuiltLookup | src/commands/company/fetch.ts:73-98 | with distinct keys, each assignment so far leaves its key holding its value, or absent when its guard was false |
| Params.BuiltEmpty | src/commands/company/fetch.ts:96-97 | the record so far is empty exactly when every guard so far was false |
| Params.RecordLookup | src/commands/company/fetch.ts:73-98 | each assigned key of a finished record holds its value |
| Params.RecordAbsent | src/commands/company/fetch.ts:73-98 | a key that no assignment names is absent from the finished record |
| Params.RecordEmpty | src/commands/company/fetch.ts:96-97 | the finished record is empty exactly when every guard was false |
| Params.Assigned | src/commands/company/fetch.ts:77-79 | the definition of one guarded assignment `if (guard) record.key = value`: one member, or none |
| Params.Built | src/commands/company/fetch.ts:73-98 | the definition of a record after its first n assignments; stated by BuiltAbsent, BuiltLookup and BuiltEmpty |
| Params.Record | src/commands/company/fetch.ts:73-98 | the definition of the finished record; stated by RecordLookup, RecordAbsent and RecordEmpty |
| Params.LimitSinceEntries | src/commands/company/fetch.ts:106-110 | the definition of the two guarded `limit` and `since` assignments; stated by LimitSinceContents |
| Json.Truthy | src/core/output/formatter.ts:32 | the definition of JavaScript truthiness: `null`, `false`, `0` and the empty string are falsy, and every array and object is truthy |
| Json.Property | src/core/output/formatter.ts:192 | `value[key]` is the member of an object, the element of an array or the character of a string at a decimal index, the `length` of an array or a string, and nothing for numbers, booleans and `null` |
| Json.Entries | src/core/output/formatter.ts:136 | `Object.entries` gives an object's members, an array's elements or a string's characters under their indices, and nothing for the rest |
| Json.Display | src/core/output/formatter.ts:175 | `String(value)` is a string itself, `null` for null and `[object Object]` for an object |
| Json.IsIndexKey | src/core/output/field-selector.ts:21 | the definition of an array index key (section 6.1.7 of ECMA-262): a canonical decimal string whose value is below 2^32 - 1 |
| Json.IndexValue | src/core/output/field-selector.ts:21 | the numeric value of an index key |
| Json.IndexValueInjective | src/core/output/field-selector.ts:21 | two index keys with the same value are the same key, since the decimal form is canonical |
| Json.IndexKeyOf | src/core/output/field-selector.ts:21 | the decimal form of every number below 2^32 - 1 is an index key with that value |
| Json.IndexFirst | src/core/output/field-selector.ts:21 | the definition of JavaScript's order on neighbouring keys (section 10.1.11.1 of ECMA-262): an index key is preceded only by a smaller index key |
| Json.PropertyOrder | src/core/output/field-selector.ts:21 | the definition of a key sequence in JavaScript's property order, stated for neighbours |
| Json.PropertyOrderPairs | src/core/output/field-selector.ts:21 | in a key sequence in property order, any key anywhere before an index key is a smaller index key |
| Json.KeysCons | src/core/output/field-selector.ts:21 | the keys of a member followed by members are its key followed by theirs |
| Json.Assign | src/core/output/field-selector.ts:21 | assigning to a present key replaces its value in place: the keys and their order are kept, that key reads the new value and every other key reads as before |
| Json.InsertIndex | src/core/output/field-selector.ts:21 | inserting an index key puts it before the first member that is no smaller index key: one more member, the new key reads its value and every other key reads as before |
| Json.Put | src/core/output/field-selector.ts:21 | `result[field] = value`: a present key keeps its place; an absent index key is inserted in its ascending place, any other absent key is appended; afterwards the key reads `value` and every other key reads as before |
| Json.PutKeepsOrder | src/core/output/field-selector.ts:21 | an assignment keeps an object's keys in JavaScript's property order |
| Json.InsertKeepsOrder | src/core/output/field-selector.ts:21 | inserting an index key keeps the property order |
| Json.AppendKeepsOrder | src/core/output/field-selector.ts:21 | appending a key that is no index key keeps the property order |
| Json.KeysAppend | src/core/output/field-selector.ts:21 | the keys of members with one appended are their keys with its key appended |
| Json.AppendedThenIndex | src/core/output/field-selector.ts:21 | assigning `b` and then `1` to an empty object gives `1` before `b` |
| Json.SmallerIndexFirst | src/core/output/field-selector.ts:21 | assigning `10` and then `2` to an empty object gives `2` before `10` |
| Text.Split | src/core/output/field-selector.ts:2 | a split on one character has one more piece than there are separators |
| Text.Trim | src/core/output/field-selector.ts:2 | the trimmed string is no longer than the original, starts and ends with no white space, and equals a string that has none |
| Text.SplitCsv | src/core/output/field-selector.ts:2 | `split(',').map(trim)` has one piece more than there are commas, each the trimmed piece of the split and free of commas |
| Text.PadEnd | src/core/output/formatter.ts:198-205 | the padded string is the original followed by spaces up to the width, and never shorter than the original |
| Text.LowerChar | src/core/auth/config-store.ts:217-219 | `toLowerCase` turns an ASCII capital into its small letter and keeps every other character |
| Text.ToLower | src/core/auth/config-store.ts:217-219 | the lower-cased string has the same length and each character lower-cased |
| Text.DecimalValue | src/core/output/field-selector.ts:21 | the definition of the number a string of decimal digits denotes |
| Text.DecimalRoundTrip | src/core/output/field-selector.ts:21 | a canonical decimal string is the decimal form of its value |
| Text.NatToStringRoundTrip | src/core/output/field-selector.ts:21 | the decimal form of a number is canonical and denotes that number |
| CompanyFetch.SectionsRequested | src/commands/company/fetch.ts:73-79 | the company URL is always sent, and each section is requested exactly when its flag is set |
| CompanyFetch.EmployeesConfigSent | src/commands/company/fetch.ts:81-98 | the employees configuration is sent exactly when employees are requested and a limit or one of the six employee filters is truthy |
| CompanyFetch.EmployeesFilterContents | src/commands/company/fetch.ts:85-94 | the employees filter holds each name and position flag as given and each list flag as its trimmed comma-separated pieces, exactly when the flag is truthy |
| CompanyFetch.EmployeesConfigContents | src/commands/company/fetch.ts:82-98 | the employees configuration holds the limit exactly when truthy and the filter exactly when it is non-empty, and is what the parameters carry when sent |
| CompanyFetch.OtherConfigsSent | src/commands/company/fetch.ts:100-111 | the decision-makers configuration is sent exactly with `--dms` and a truthy limit, and holds that limit; the posts configuration exactly with `--posts` and a truthy limit or date |
| CompanyFetch.BuildEmployeesFilter | src/commands/company/fetch.ts:85-94 | the six guarded assignments build the employees filter |
| CompanyFetch.BuildEmployeesConfig | src/commands/company/fetch.ts:82-97 | builds the employees configuration: the limit, then the filter when it is non-empty |
| CompanyFetch.RequestSections | src/commands/company/fetch.ts:73-79 | the URL and the three section flags are the first four assignments |
| CompanyFetch.BuildParams | src/commands/company/fetch.ts:73-111 | the parameters built are exactly the specified fetch parameters |
| CompanyFetch.EmployeesFilterEntries | src/commands/company/fetch.ts:85-94 | the definition of the six guarded filter assignments, in source order; stated by EmployeesFilterContents |
| CompanyFetch.EmployeesConfigEntries | src/commands/company/fetch.ts:82-96 | the definition of the two guarded configuration assignments: `limit` when truthy, the filter when non-empty |
| CompanyFetch.EmployeesConfig | src/commands/company/fetch.ts:82-96 | the definition of the employees configuration built from those assignments; stated by EmployeesConfigContents |
| CompanyFetch.ParamEntries | src/commands/company/fetch.ts:73-111 | the definition of the assignments to `params` in source order; stated by SectionsRequested, EmployeesConfigSent and OtherConfigsSent |
| CompanyFetch.FetchParams | src/commands/company/fetch.ts:73-111 | the definition of the parameters sent: the record those assignments build |
| CompanyFetch.Run | src/commands/company/fetch.ts:68-128 | without tokens, the command makes no call and exits AUTH; otherwise it runs `fetchCompany` with those parameters and outputs the result or the error |
| PersonFetch.SectionsRequested | src/commands/person/fetch.ts:77-87 | the person URL is always sent, and each of the seven sections is requested exactly when its flag is set |
| PersonFetch.ConfigsSent | src/commands/person/fetch.ts:89-108 | each of the posts, comments and reactions configurations is sent exactly when its section is requested with a truthy limit or date, and then holds exactly the truthy limit and date of that section |
| PersonFetch.RequestProfileSections | src/commands/person/fetch.ts:77-84 | the URL and the four profile sections are the first five assignments |
| PersonFetch.RequestActivitySections | src/commands/person/fetch.ts:85-87 | the three activity sections are the next three assignments |
| PersonFetch.BuildParams | src/commands/person/fetch.ts:77-108 | the parameters built are exactly the specified fetch parameters |
| PersonFetch.SectionConfig | src/commands/person/fetch.ts:89-108 | the definition of one guarded retrieval configuration: present exactly when its section is requested with a truthy limit or date |
| PersonFetch.ParamEntries | src/commands/person/fetch.ts:77-108 | the definition of the assignments to `params` in source order; stated by SectionsRequested and ConfigsSent |
| PersonFetch.FetchParams | src/commands/person/fetch.ts:77-108 | the definition of the parameters sent: the record those assignments build |
| PersonFetch.Run | src/commands/person/fetch.ts:72-125 | without tokens, the command makes no call and exits AUTH; otherwise it runs `fetchPerson` with those parameters and outputs the result or the error |
| PostFetch.SectionsRequested | src/commands/post/fetch.ts:53-58 | the post URL is always sent, and comments and reactions are requested exactly when their flags are set |
| PostFetch.CommentsConfigContents | src/commands/post/fetch.ts:64-67 | the comments configuration holds exactly the truthy ones of the limit, the sort order and the replies flag |
| PostFetch.CommentsConfigSent | src/commands/post/fetch.ts:60-69 | the comments configuration is sent exactly when comments are requested with a truthy limit, sort order or replies flag, and is then that configuration |
| PostFetch.ReactionsConfigSent | src/commands/post/fetch.ts:71-75 | the reactions configuration is sent exactly with `--reactions` and a truthy limit, and holds that limit |
| PostFetch.BuildCommentsConfig | src/commands/post/fetch.ts:64-67 | the three guarded assignments build the comments configuration |
| PostFetch.BuildParams | src/commands/post/fetch.ts:53-75 | the parameters built are exactly the specified fetch parameters |
| PostFetch.CommentsConfigEntries | src/commands/post/fetch.ts:64-67 | the definition of the three guarded comments-configuration assignments; stated by CommentsConfigContents |
| PostFetch.CommentsConfigured | src/commands/post/fetch.ts:60-63 | the definition of the comments-configuration guard |
| PostFetch.ParamEntries | src/commands/post/fetch.ts:53-75 | the definition of the assignments to `params` in source order; stated by SectionsRequested, CommentsConfigSent and ReactionsConfigSent |
| PostFetch.FetchParams | src/commands/post/fetch.ts:53-75 | the definition of the parameters sent: the record those assignments build |
| PostFetch.Run | src/commands/post/fetch.ts:48-92 | without tokens, the command makes no call and exits AUTH; otherwise it runs `fetchPost` with those parameters and outputs the result or the error |
| NavigatorCompanyFetch.SectionsRequested | src/commands/navigator/company/fetch.ts:65-100 | the hashed URL is always sent; each section is requested exactly when its flag is set; the decision-makers configuration is sent exactly with `--dms` and a truthy limit |
| NavigatorCompanyFetch.EmployeesConfigSent | src/commands/navigator/company/fetch.ts:72-94 | the employees configuration is sent exactly when employees are requested and a limit or one of the seven employee filters is truthy |
| NavigatorCompanyFetch.EmployeesFilterContents | src/commands/navigator/company/fetch.ts:76-90 | the employees filter holds each name flag as given and each list flag as its trimmed comma-separated pieces, exactly when the flag is truthy |
| NavigatorCompanyFetch.EmployeesConfigContents | src/commands/navigator/company/fetch.ts:73-94 | the employees configuration holds the limit exactly when truthy and the filter exactly when it is non-empty, and is what the parameters carry when sent |
| NavigatorCompanyFetch.NoPostsSection | src/commands/navigator/company/fetch.ts:65-100 | neither a posts flag nor a posts configuration is ever sent |
| NavigatorCompanyFetch.BuildEmployeesFilter | src/commands/navigator/company/fetch.ts:76-90 | the seven guarded assignments build the employees filter |
| NavigatorCompanyFetch.AddListFilters | src/commands/navigator/company/fetch.ts:79-90 | the five comma-separated list filters complete the filter that the two name filters began |
| NavigatorCompanyFetch.BuildEmployeesConfig | src/commands/navigator/company/fetch.ts:73-93 | builds the employees configuration: the limit, then the filter when it is non-empty |
| NavigatorCompanyFetch.BuildParams | src/commands/navigator/company/fetch.ts:65-100 | the parameters built are exactly the specified fetch parameters |
| NavigatorCompanyFetch.EmployeesFilterEntries | src/commands/navigator/company/fetch.ts:76-90 | the definition of the seven guarded filter assignments, in source order; stated by EmployeesFilterContents |
| NavigatorCompanyFetch.EmployeesConfigEntries | src/commands/navigator/company/fetch.ts:73-92 | the definition of the two guarded configuration assignments: `limit` when truthy, the filter when non-empty |
| NavigatorCompanyFetch.EmployeesConfig | src/commands/navigator/company/fetch.ts:73-92 | the definition of the employees configuration built from those assignments; stated by EmployeesConfigContents |
| NavigatorCompanyFetch.ParamEntries | src/commands/navigator/company/fetch.ts:65-100 | the definition of the assignments to `params` in source order; stated by SectionsRequested, EmployeesConfigSent and NoPostsSection |
| NavigatorCompanyFetch.FetchParams | src/commands/navigator/company/fetch.ts:65-100 | the definition of the parameters sent: the record those assignments build |
| NavigatorCompanyFetch.Run | src/commands/navigator/company/fetch.ts:60-117 | without tokens, the command makes no call and exits AUTH; otherwise it runs `nvFetchCompany` with those parameters and outputs the result or the error |
| CompanySearch.FilterSent | src/commands/company/search.ts:43-50 | the filter is sent exactly when a size, location or industry list is truthy, and is then the record of those lists |
| CompanySearch.QuerySent | src/commands/company/search.ts:39-50 | `term` and `limit` are sent exactly when truthy, and `params` has no key besides `term`, `limit` and `filter` |
| CompanySearch.FilterContents | src/commands/company/search.ts:43-46 | the filter holds each list flag as its trimmed comma-separated pieces, exactly when truthy |
| CompanySearch.BuildFilter | src/commands/company/search.ts:43-46 | the three guarded list assignments build the filter |
| CompanySearch.BuildParams | src/commands/company/search.ts:39-50 | the parameters built are exactly the specified search parameters |
| CompanySearch.FilterEntries | src/commands/company/search.ts:43-46 | the definition of the three guarded list assignments; stated by FilterContents |
| CompanySearch.ParamEntries | src/commands/company/search.ts:39-50 | the definition of the assignments to `params` in source order; stated by QuerySent and FilterSent |
| CompanySearch.SearchParams | src/commands/company/search.ts:39-50 | the definition of the parameters sent: the record those assignments build |
| CompanySearch.Run | src/commands/company/search.ts:34-67 | without tokens, the command makes no call and exits AUTH; otherwise it runs `searchCompanies` with those parameters and outputs the result or the error |
| NavigatorCompanySearch.RevenueSent | src/commands/navigator/company/search.ts:52-57 | the annual revenue is in the filter exactly when a minimum or maximum is truthy, and holds only `min` and `max`, each exactly when truthy |
| NavigatorCompanySearch.FilterSent | src/commands/navigator/company/search.ts:48-61 | the filter is sent exactly when a list or a revenue bound is truthy, and is then the record of those |
| NavigatorCompanySearch.QuerySent | src/commands/navigator/company/search.ts:44-61 | `term` and `limit` are sent exactly when truthy, and `params` has no key besides `term`, `limit` and `filter` |
| NavigatorCompanySearch.FilterContents | src/commands/navigator/company/search.ts:48-51 | the filter holds each list flag as its trimmed comma-separated pieces, exactly when truthy |
| NavigatorCompanySearch.BuildRevenue | src/commands/navigator/company/search.ts:53-55 | the two guarded assignments build the revenue record |
| NavigatorCompanySearch.BuildFilter | src/commands/navigator/company/search.ts:48-57 | the list assignments and the revenue build the filter |
| NavigatorCompanySearch.BuildParams | src/commands/navigator/company/search.ts:44-61 | the parameters built are exactly the specified search parameters |
| NavigatorCompanySearch.RevenueEntries | src/commands/navigator/company/search.ts:53-55 | the definition of the two guarded revenue assignments; stated by RevenueSent |
| NavigatorCompanySearch.FilterEntries | src/commands/navigator/company/search.ts:48-57 | the definition of the filter assignments in source order; stated by FilterContents and RevenueSent |
| NavigatorCompanySearch.ParamEntries | src/commands/navigator/company/search.ts:44-61 | the definition of the assignments to `params` in source order; stated by QuerySent and FilterSent |
| NavigatorCompanySearch.SearchParams | src/commands/navigator/company/search.ts:44-61 | the definition of the parameters sent: the record those assignments build |
| NavigatorCompanySearch.Run | src/commands/navigator/company/search.ts:39-78 | without tokens, the command makes no call and exits AUTH; otherwise it runs `nvSearchCompanies` with those parameters and outputs the result or the error |
| ConnectionList.QuerySent | src/commands/connection/list.ts:54-72 | `limit` and `since` are sent exactly when truthy, and `params` has no key besides `limit`, `since` and `filter` |
| ConnectionList.FilterEmpty | src/commands/connection/list.ts:58-70 | the filter is empty exactly when none of the eight filter flags is truthy |
| ConnectionList.FilterContents | src/commands/connection/list.ts:58-68 | the filter holds each name flag as given and each list flag as its trimmed comma-separated pieces, exactly when truthy |
| ConnectionList.FilterSent | src/commands/connection/list.ts:70-72 | the filter is sent exactly when some filter flag is truthy, and is then that filter |
| ConnectionList.BuildNameFilters | src/commands/connection/list.ts:58-61 | the first name, last name and position are the first three filter assignments |
| ConnectionList.AddPlaceFilters | src/commands/connection/list.ts:62-63 | the locations and industries are the next two |
| ConnectionList.AddCareerFilters | src/commands/connection/list.ts:64-68 | the companies and schools finish the filter |
| ConnectionList.BuildFilter | src/commands/connection/list.ts:58-68 | the eight guarded assignments build the filter |
| ConnectionList.BuildParams | src/commands/connection/list.ts:54-72 | the parameters built are exactly the specified list parameters |
| ConnectionList.FilterEntries | src/commands/connection/list.ts:58-68 | the definition of the eight guarded filter assignments, in source order; stated by FilterContents |
| ConnectionList.Filtered | src/commands/connection/list.ts:58-70 | the definition of "some filter flag is truthy"; related to the filter by FilterEmpty |
| ConnectionList.ParamEntries | src/commands/connection/list.ts:54-72 | the definition of the assignments to `params` in source order; stated by QuerySent and FilterSent |
| ConnectionList.ListParams | src/commands/connection/list.ts:54-72 | the definition of the parameters sent: the record those assignments build |
| ConnectionList.Run | src/commands/connection/list.ts:49-89 | without tokens, the command makes no call and exits AUTH; otherwise it runs `retrieveConnections` with those parameters and outputs the result or the error |
| NavigatorPersonSearch.QuerySent | src/commands/navigator/person/search.ts:56-75 | `term` and `limit` are sent exactly when truthy, and `params` has no key besides `term`, `limit` and `filter` |
| NavigatorPersonSearch.FilterEmpty | src/commands/navigator/person/search.ts:60-73 | the filter is empty exactly when none of the nine filter flags is truthy |
| NavigatorPersonSearch.FilterContents | src/commands/navigator/person/search.ts:60-71 | the filter holds each name flag as given and each list flag as its `splitCsv` pieces, exactly when truthy |
| NavigatorPersonSearch.FilterSent | src/commands/navigator/person/search.ts:73-75 | the filter is sent exactly when some filter flag is truthy, and is then that filter |
| NavigatorPersonSearch.BuildNameFilters | src/commands/navigator/person/search.ts:60-63 | the first name, last name and position are the first three filter assignments |
| NavigatorPersonSearch.AddPlaceFilters | src/commands/navigator/person/search.ts:64-65 | the locations and industries are the next two |
| NavigatorPersonSearch.AddCareerFilters | src/commands/navigator/person/search.ts:66-71 | the companies, schools and experience ranges finish the filter |
| NavigatorPersonSearch.BuildFilter | src/commands/navigator/person/search.ts:60-71 | the nine guarded assignments build the filter |
| NavigatorPersonSearch.BuildParams | src/commands/navigator/person/search.ts:56-75 | the parameters built are exactly the specified search parameters |
| NavigatorPersonSearch.FilterEntries | src/commands/navigator/person/search.ts:60-71 | the definition of the nine guarded filter assignments, in source order; stated by FilterContents |
| NavigatorPersonSearch.Filtered | src/commands/navigator/person/search.ts:60-73 | the definition of "some filter flag is truthy"; related to the filter by FilterEmpty |
| NavigatorPersonSearch.ParamEntries | src/commands/navigator/person/search.ts:56-75 | the definition of the assignments to `params` in source order; stated by QuerySent and FilterSent |
| NavigatorPersonSearch.SearchParams | src/commands/navigator/person/search.ts:56-75 | the definition of the parameters sent: the record those assignments build |
| NavigatorPersonSearch.Run | src/commands/navigator/person/search.ts:51-92 | without tokens, the command makes no call and exits AUTH; otherwise it runs `nvSearchPeople` with those parameters and outputs the result or the error |
| PostCreate.TypesHaveNoColon | src/commands/post/create.ts:60 | no attachment type contains `:` |
| PostCreate.ParseAttachment | src/commands/post/create.ts:45-80 | a failure carries the format error or the type error for the attachment; a success has a known type, and a name without `:` that is not a type |
| PostCreate.ParseWithoutColon | src/commands/post/create.ts:46-50 | text without `:` is rejected with the format error |
| PostCreate.ParsedUnparses | src/commands/post/create.ts:53-66 | an attachment that parses is exactly the text of what it parses to: `url:type` or `url:type:name` |
| PostCreate.SplitTyped | src/commands/post/create.ts:46 | splitting `url:type` on `:` gives the pieces of the URL followed by the type |
| PostCreate.ParseTyped | src/commands/post/create.ts:60-62 | `url:type` parses to that URL and type, whatever `:` the URL holds |
| PostCreate.ParseNamed | src/commands/post/create.ts:63-66 | `url:type:name` parses to that URL, type and name, for a name without `:` that is not a type |
| PostCreate.ParseUnparse | src/commands/post/create.ts:45-80 | every well-formed attachment parses back from its text |
| PostCreate.AttachmentRecord | src/commands/post/create.ts:73-79 | the record holds `url` and `type`, `name` exactly when it is truthy, and no other key |
| PostCreate.ParseAll | src/commands/post/create.ts:45-80 | on success there is one record per attachment |
| PostCreate.ParseAllRecords | src/commands/post/create.ts:45-80 | on success every attachment parses, and its record sits at its position |
| PostCreate.ParseAllErr | src/commands/post/create.ts:45-80 | a failure is the error of some attachment whose predecessors all parse |
| PostCreate.ParamsSent | src/commands/post/create.ts:38-83 | the text is always sent, the company URL exactly when truthy, and the attachment records exactly when there are attachments |
| PostCreate.BuildParams | src/commands/post/create.ts:38-83 | builds exactly the create parameters, or returns the first attachment error |
| PostCreate.AssignParams | src/commands/post/create.ts:38-83 | the text, the company URL and the attachment records are assigned in source order and build exactly the specified record |
| PostCreate.ParamEntries | src/commands/post/create.ts:38-83 | the definition of the assignments to `params`: the text, the company URL when truthy, the attachment records when there are any |
| PostCreate.CreateParams | src/commands/post/create.ts:38-83 | the definition of the parameters sent, or the first attachment error; stated by ParamsSent |
| PostCreate.Run | src/commands/post/create.ts:33-100 | without tokens, the command makes no call and exits AUTH; an attachment error escapes with no call made and nothing written; otherwise it runs `createPost` and outputs the result or the error |
| MessageGet.FirstConversation | src/commands/message/get.ts:48 | missing or falsy data gives no conversation |
| MessageGet.FirstConversationIsIndexZero | src/commands/message/get.ts:48 | for truthy data the conversation is its property `0`: the first element of an array, nothing for an empty one |
| MessageGet.SyncFetch | src/commands/message/get.ts:65-80 | the slow path from the synchronisation on writes no progress line of its own |
| MessageGet.FastPath | src/commands/message/get.ts:39-58 | a first poll without errors ends the command after one call, and outputs its first conversation with no errors |
| MessageGet.SlowPath | src/commands/message/get.ts:60-88 | a first poll with errors leads to one start of the synchronisation workflow, one wait on the id it returned and one more poll of the same target, whose first conversation and errors are output unchanged |
| MessageGet.PollsShareTheTarget | src/commands/message/get.ts:39-78 | every poll asks for the same one conversation (URL, type and `since`), at most two polls are made, and every call uses the resolved tokens |
| MessageGet.FetchProgress | src/commands/message/get.ts:34-63 | quiet mode writes no progress line; otherwise "Fetching conversation..." comes first, and the "Syncing" line appears exactly when the first poll reported errors |
| MessageGet.FetchConversation | src/commands/message/get.ts:33-91 | the calls, progress lines, output and exit code are exactly those of the fetch, with anything thrown handled by `handleError` |
| MessageGet.ConversationFetch | src/commands/message/get.ts:33-88 | the definition of the fetch: one poll, and on errors the synchronisation and a second poll; stated by FastPath, SlowPath, PollsShareTheTarget and FetchProgress |
| MessageGet.SyncParams | src/commands/message/get.ts:65-67 | the definition of the synchronisation parameters: exactly the person URL |
| MessageGet.PollAndSync | src/commands/message/get.ts:34-80 | the calls and progress lines up to the output are those of the fetch, and the ending is the fetch's |
| MessageGet.SyncAndRetry | src/commands/message/get.ts:65-80 | the synchronisation, the wait and the second poll make exactly the slow path's calls |
| MessageGet.SyncAfterPoll | src/commands/message/get.ts:60-80 | after a first poll with errors, writes the "Syncing" line unless quiet, then makes exactly the slow path's calls and ends as it does |
| MessageGet.SyncCalls | src/commands/message/get.ts:65-78 | the slow path starts the synchronisation, then waits on it, then polls the same target again, all with the same tokens |
| MessageGet.Run | src/commands/message/get.ts:28-92 | without tokens, the command makes no call and exits AUTH; otherwise it performs the fetch with type `st` and the `syncConversation` workflow |
| NavigatorMessageGet.Run | src/commands/navigator/message/get.ts:27-91 | without tokens, the command makes no call and exits AUTH; otherwise it performs the same fetch with type `nv` and the `nvSyncConversation` workflow |
| WorkflowStatusCommand.RunningData | src/commands/workflow/status.ts:56-59 | a running workflow is shown as an object holding exactly its id and the status `running` |
| WorkflowStatusCommand.WaitCallsResult | src/commands/workflow/status.ts:37-52 | the command makes exactly one call: `result` on the id with `--wait` (whose data and errors are output), `status` without it |
| WorkflowStatusCommand.StatusOutput | src/commands/workflow/status.ts:52-73 | without `--wait`, a running workflow is shown as its id and `running` with no errors, and a finished one as its data and errors |
| WorkflowStatusCommand.WaitingLine | src/commands/workflow/status.ts:38-40 | the waiting line naming the workflow is written exactly with `--wait` and without `--quiet` |
| WorkflowStatusCommand.Status | src/commands/workflow/status.ts:36-77 | the call, progress line, output and exit code are exactly those of the status outcome |
| WorkflowStatusCommand.Query | src/commands/workflow/status.ts:37-74 | the call and the waiting line are the outcome's, and the ending is the outcome's |
| WorkflowStatusCommand.StatusOutcome | src/commands/workflow/status.ts:37-74 | the definition of the body's outcome; stated by WaitCallsResult, StatusOutput and WaitingLine |
| WorkflowStatusCommand.Run | src/commands/workflow/status.ts:31-78 | without tokens, the command makes no call and exits AUTH; otherwise it performs the status outcome |
| Setup.Step | src/commands/setup.ts:103-123 | Enter resolves with the input so far, Backspace or DEL drops the last character of a non-empty input, Ctrl-C interrupts, a character from the space up is appended, and other control characters are ignored |
| Setup.Echo | src/commands/setup.ts:103-123 | what one character writes: Enter and Ctrl-C write a newline; Backspace or DEL writes `\b \b` on a non-empty input and nothing on an empty one; a character from the space up writes itself while the input is a prefix of the visible prefix and `*` otherwise; other control characters write nothing; never more than one entry (`EchoMasks` gives what a revealed character can be) |
| Setup.EchoMasks | src/commands/setup.ts:119-122 | an appended character is echoed as itself exactly when the input is still a prefix of the visible prefix (or the character is `*`), so a revealed character is the visible prefix's character at that position |
| Setup.FeedFrom | src/commands/setup.ts:101-125 | the definition of the `for...of` loop's effect on the prompt: the characters of a chunk are handled in turn, and the first Enter or Ctrl-C ends the handling; stated by `TypedLine`, `RestIgnored`, `TypeThenErase` and the `OnData` method |
| Setup.EchoFrom | src/commands/setup.ts:101-125 | the definition of what that loop writes: each handled character's `Echo`, up to and including the Enter or Ctrl-C that ends it; `OnData` is proved to write exactly this |
| Setup.TypedLine | src/commands/setup.ts:101-109 | plain characters up to an Enter resolve the prompt with exactly those characters |
| Setup.RestIgnored | src/commands/setup.ts:103-109 | the characters after an Enter in the same chunk are never looked at |
| Setup.TypeThenErase | src/commands/setup.ts:110-114 | a character followed by Backspace leaves the input as it was |
| Setup.HandleChar | src/commands/setup.ts:103-123 | one character moves the prompt by the step, writes its echo, and exits with code 0 exactly on Ctrl-C |
| Setup.OnData | src/commands/setup.ts:101-125 | the loop over a chunk ends in the chunk's state, writes its echo, and exits with code 0 exactly when interrupted |
| Setup.PromptFrom | src/commands/setup.ts:101-127 | a prompt consumes at least one of the remaining chunks and no more than there are |
| Setup.WaitingConsumedAll | src/commands/setup.ts:127 | a prompt that is still waiting has consumed every chunk |
| Setup.Resumed | src/commands/setup.ts:101-127 | the definition of the rest of a prompt from a given state: a waiting prompt goes on with the next chunk, an ended one consumes nothing more and writes nothing; `ResumeAt` relates one chunk to the rest |
| Setup.ReadMaskedInput | src/commands/setup.ts:90-129 | writes the prompt and then the echo of the chunks it handles; the result and the next stream position are those of the prompt's run; it exits with code 0 exactly when interrupted |
| Setup.FirstReading | src/commands/setup.ts:49 | the definition of the first prompt: the Linked API token read from the start of standard input with the visible prefix `account_`; stated by `TypedTokens` |
| Setup.SecondReading | src/commands/setup.ts:50 | the definition of the second prompt: the identification token read from the chunks the first prompt left, with the visible prefix `id_` |
| Setup.Acquire | src/commands/setup.ts:31-51 | both flags given (and non-empty) give the tokens from the flags; otherwise there is a refusal exactly without a terminal, and the tokens are obtained exactly when both prompts are entered, with what was typed |
| Setup.TypedTokens | src/commands/setup.ts:44-50 | two tokens typed as plain characters, each ended by Enter in its own chunk, are obtained exactly as typed |
| Setup.PromptForTokens | src/commands/setup.ts:44-50 | writes the introduction and the first prompt's run, and the second prompt only once the first token is entered; it exits with code 0 exactly when a prompt is interrupted |
| Setup.PromptWrites | src/commands/setup.ts:44-50 | the definition of what the interactive branch writes: the introduction, the first prompt and its echo, and, once the first token is entered, the second prompt and its echo; `PromptForTokens` is proved to write exactly this |
| Setup.AcquireTokens | src/commands/setup.ts:31-51 | without a terminal and without both flags, writes the non-interactive message and exits AUTH; otherwise writes only the prompts, if any |
| Setup.DisplayName | src/commands/setup.ts:66-78 | the account is saved under the non-empty string `name` when the account data has one, and under `default` when the data or the name is missing |
| Setup.SavedIsActive | src/commands/setup.ts:80-86 | the saved account becomes the active one, with the verified tokens |
| Setup.VerifyAndSave | src/commands/setup.ts:53-86 | an empty token stops with AUTH before any call; a failed account-information query writes `FAILED` and the invalid-token message, exits AUTH and leaves the file alone; a successful one writes `OK`, saves the account and reports it as active |
| Setup.Verified | src/commands/setup.ts:53-86 | an empty token writes the both-required message and exits AUTH with no call and the file untouched; otherwise exactly one account-information call is made; its failure writes `FAILED` and the invalid-tokens message, exits AUTH and leaves the file alone; its success writes `OK` and the saved message, and saves the account, whose tokens become those `readConfig` returns |
| Setup.Run | src/commands/setup.ts:25-87 | no call is made and the file is untouched unless both tokens are obtained; a non-interactive refusal exits AUTH; an interrupted prompt exits 0; obtained tokens are verified and saved as above |

## Left out

- File-system and JSON mechanics of src/core/auth/config-store.ts (`fs.*`, `mkdirSync`, mode `0600`, `JSON.parse`/`JSON.stringify`): the configuration file is the `ConfigStore.Disk` value, and `saveRawConfig` is an assignment of a new `Disk`.
- `getConfigDir`, `getConfigPath` and `getConfigFilePath` (src/core/auth/config-store.ts:21-33, 253-255): the XDG and home-directory lookup is environment access, and the model has one configuration file.
- The remote service and its client library `@linkedapi/node`: its answers are arbitrary functions of the call and of the call count, and every call is recorded in a ghost trace; src/core/client/build-client.ts, the construction of the client, is a library wrapper and is not part of this model.
- `async`/`await`: every flow is sequential, so awaited calls are ordinary method calls; races between processes writing the configuration file are not modelled.
- oclif argument parsing and flag declarations: each command receives its parsed flags as a datatype; `this.exit(code)` is the `exitCode` field of `Process.Console`, after which nothing more is written.
- TTY detection (src/utils/tty.ts) is the `stdinTty`/`stdoutTty` booleans; the `--no-color` handling of src/base-command.ts:36-38 changes only an environment variable and is not modelled.
- Setup's raw-mode terminal handling (`setRawMode`, `resume`, `setEncoding`, `pause`, `removeListener`): standard input is a sequence of `data` chunks shared by both prompts, and the characters after Enter in the chunk that held it are dropped, as removing the listener does.
- `Setup.Run`: a prompt still waiting for Enter when the input ends is modelled as the command returning without an exit code, since the pending promise never settles; Ctrl-C's `process.exit(0)` is an exit with code 0.
- `Setup.DisplayName`: a truthy `name` of the account data that is not a string is saved as `default`, where the source would store that value.
- Numbers are integers only: JSON floating point is not modelled.
- `Text.LowerChar`: `toLowerCase` in the account name lookup is modelled for ASCII letters only; other letters keep their case.
- `Setup.Step`: strings are sequences of characters, while JavaScript strings are sequences of UTF-16 code units. For a character outside the Basic Multilingual Plane, the source's `slice(0, -1)` on Backspace removes only the low surrogate and leaves a lone high surrogate; the model removes the whole character. `for...of` iterates code points in both.
- `AccountList.TruncateToken`: the length test and the `slice` calls count UTF-16 code units in the source and characters in the model, so a token holding characters outside the Basic Multilingual Plane is shortened at other positions.
- `Formatter.Width`: column widths and `padEnd` count UTF-16 code units in the source and characters in the model, so a cell holding characters outside the Basic Multilingual Plane gets a narrower column in the model.
- `FieldSelector.PickedKeys`: `field in record` also finds names inherited from the prototype (`toString`, `constructor`, and the `Array.prototype` methods for an array). The source copies such a field's function value into the result, which `JSON.stringify` then drops and the human output prints as the function's source text. The model looks at own properties only.
- `FieldSelector.Picked`: a requested field that names an inherited property is not picked, for the reason given for `FieldSelector.PickedKeys`.
- `FieldSelector.PickFields`: the loop is proved equal to `Picked`, so it leaves out inherited properties in the same way.
- `FieldSelector.SelectFields`: projects with `Picked`, so inherited property names are left out for arrays and objects alike.
- `Formatter.Cell`: `record[key]` reads own properties only. When the first row has an own key such as `toString` and a later row lacks it, the source prints the inherited method's source text in that cell; the model prints an empty cell.
- The `TypeError` messages a rendering throws are the wording of Node's V8 engine (`Cannot read properties of null (reading 'key')`, `Cannot convert undefined or null to object`).
- JavaScript object key order is the order of the members of a `Json.Value` object. The objects the model builds follow section 10.1.11.1 of ECMA-262: `Json.Put` keeps a present key in place, inserts an absent array index key (a canonical decimal below 2^32 - 1) in ascending place among the index keys, and appends any other key. An object given as input is taken in the order it holds; `JSON.parse` produces objects in that order, but the `Json.Value` type does not enforce it.
- The parameter records the commands build hold no array index keys, so their members are in assignment order, which is JavaScript's order for them.
- `ErrorHandler.MapLinkedApiErrorToCliError`: src/core/errors/error-handler.ts:1 imports `LinkedApiError` from `linkedapi-node`, while src/base-command.ts:2 imports it from `@linkedapi/node`. The model assumes both names denote the same class, so a library error reaching `handleError` is mapped. If they were different packages, the `instanceof` test at src/base-command.ts:57 would fail for the errors the client throws, and every library error, the TIMEOUT one included, would be reported as an unexpected error with exit code GENERAL. No package manifest is part of this model to settle which holds.
- The parameter builders build nested records (filters, configurations) before the enclosing `params` record; the assignments are independent, so the resulting records are the same as in the source order.
- `PostCreate.Run`: an attachment parse error thrown before the `try` block escapes `run` and is reported by the oclif framework; the model returns that message and leaves its rendering out.
- `BaseCommand.HandleError`: the final `throw error` after `this.exit` is unreachable in the model, since exit ends the command.
- `BaseCommand.BuildAuthenticatedClient`: the resolution error is always an `Error`, so the `instanceof Error` guard is always taken; the rethrow after `this.exit(AUTH)` is the end of the command.
- src/commands/workflow/run.ts: it only reads a file or standard input and then calls `runWorkflow`.
- The pass-through commands connection send, withdraw, remove, status and pending; message send; navigator message send; navigator person fetch; post react and comment; stats usage, performance and ssi: each copies its arguments into `params` and calls `runWorkflow` or `runVoidWorkflow`, which are modelled.
- eslint.config.js is lint configuration.
