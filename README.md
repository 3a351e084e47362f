# canary_cli: a verified model of the client core

`canary_cli/main.py` is the `ccd` command-line client of a deployment
service. It manages git authentication keys, projects with their secrets,
static pages and redirects over a REST API. Most of the file wires
typer, questionary, rich and requests together. This project models the
deterministic logic inside it and proves properties of that logic:

- **Remote-spec resolution** (`Remote`). `GITHUB_REPO_PATTERN` is modelled
  twice. `FullMatch` states what a full match is. `MatchRepo` is a matcher,
  proved both sound and complete against `FullMatch`. `parse_remote` rewrites
  `user/repo[@branch]` to `git@github.com:user/repo.git`, and an explicit
  branch always beats the embedded one.
- **Response classification** (`Transport`). `Classify` states what
  `API.request` does with a reply. A status below 400 returns the decoded
  body. Any other status ends the process with status 1. The lines printed
  on the way out are chosen by the NUMBER OF TOP-LEVEL KEYS in the error
  body, not by the type of `detail`. `Api.Request` is proved equal to
  `Classify`. `Run` and `Api.Execute` send a command's calls strictly in
  order and stop at the first reply that ends the process.
- **Payload builders and call plans** (`Commands`). `auth create`,
  `project create`, `project update` and `page deploy` each become an
  `Invocation`. That is either an abort before any request, or the ordered
  list of requests, each with what the handler reads from its reply.
  `page create` cannot abort, so it yields the list of requests alone.
- **Table cells** (`Table`). This is the cell rule of `print_table`. The
  GitHub case uses `str.strip(chars)`, which strips a character set.
  `git@github.com:user/repo.git` is therefore listed as `ser/rep`.
- **Local configuration** (`Settings`). This is the in-memory map of
  `Config` and its single-key update.

Prompts, the filesystem, `.git/config`, the env file and the HTTP replies
are all inputs to the model: `Answer`, `Host`, `EnvFile` and `Reply`.
Python exceptions that the code does not catch end the process with status
1. They are modelled as `Crashed` outcomes, or as `None` where a cell
cannot be formatted.

Some behaviours of the code are easy to miss. The model keeps them as written:

- `project create` with a directory that has no `[remote "origin"]` does
  not stop. It sends `remote: ""`.
- `project update` in the same case still puts `remote` in the body. It
  sends the PUT only when a key or a branch is also set.
- The key-selection prompt of `project create` is unreachable. Its guard
  tests a constant non-empty list (`complete_config_keys`).
- The per-item error lines are printed when the error body has more than
  one key. The single-message form is printed when it has exactly one.
- `--set` keys are upper-cased. `--unset` keys and imported keys are sent
  as given.
- Python's `$` also matches before one final newline. So `org/repo\n` is a
  spec.
- `page create` and the redirect POSTs read the reply with `'detail' in
  result` and then `result['detail']`. A successful reply that is a list
  holding `"detail"`, or a string containing `detail`, raises `TypeError`,
  and the remaining redirects are not sent.

## Model

| member | source | states |
|---|---|---|
| `Json.Truthy` | canary_cli/main.py:228 | definition of Python truthiness of a decoded value (also lines 82 and 216): `None`, `False`, `0`, `""`, `[]` and `{}` are false |
| `Json.TruthyText` | canary_cli/main.py:400 | definition of the truthiness of an argument that is a string or `None` (also lines 297, 453, 460-474) |
| `Json.TextOrNull` | canary_cli/main.py:419-423 | definition of a field that is a string or `None` in a JSON body: `None` is sent as `null` |
| `Remote.ParseRemote` | canary_cli/main.py:349-356 | definition of `parse_remote`: the canonical GitHub remote for a spec the pattern matches, the branch argument unless it is empty; its properties are the `ParseRemote...` lemmas below |
| `Remote.Canonical` | canary_cli/main.py:352 | definition of the rewritten remote `git@github.com:<user>/<repo>.git` |
| `Remote.FullMatch` | canary_cli/main.py:30 | definition of a full match of `GITHUB_REPO_PATTERN` with given groups: `user/repo`, optionally `@branch`, with the names' and the branch's character classes, and `$` allowing one final newline |
| `Remote.MatchRepo` | canary_cli/main.py:30 | whatever the matcher returns is a full match of the pattern with those groups (soundness) |
| `Remote.MatchComplete` | canary_cli/main.py:30 | every full match is found, with the same groups: the groups of a match are unique (completeness) |
| `Remote.TrailingNewlineMatches` | canary_cli/main.py:30 | `$` accepts one trailing newline, which is absent from the rewritten remote |
| `Remote.CanonicalUnmatched` | canary_cli/main.py:30 | a rewritten `git@github.com:user/repo.git` never matches the pattern again |
| `Remote.ParseRemoteMatched` | canary_cli/main.py:349-356 | a matched spec becomes exactly `git@github.com:` + user + `/` + repo + `.git`; the branch is the argument when non-empty, else the embedded one when present, else the argument |
| `Remote.ParseRemoteUnmatched` | canary_cli/main.py:349-356 | a remote the pattern does not match comes back with the branch, both unchanged |
| `Remote.ExplicitBranchWins` | canary_cli/main.py:353-356 | a non-empty branch argument is never overridden, for any remote |
| `Remote.BranchChangesOnlyFromSpec` | canary_cli/main.py:353-355 | the branch changes only when the argument is empty and then becomes the spec's embedded branch |
| `Remote.ParseRemoteIdempotent` | canary_cli/main.py:349-356 | resolving an already resolved (remote, branch) changes nothing |
| `Remote.ParseRemoteExample` | canary_cli/main.py:349-356 | `org/repo@dev` with no branch gives `git@github.com:org/repo.git` and `dev` |
| `Text.SplitOnce` | canary_cli/main.py:483 | `split("=", 1)` unpacks exactly when the item holds `=`; head + `=` + tail is the item and the head holds no `=` |
| `Text.SplitOnceAt` | canary_cli/main.py:483 | the split happens at the first separator; the tail may hold more separators |
| `Text.ReplaceChar` | canary_cli/main.py:310 | `replace` keeps the length, rewrites every occurrence and leaves every other character |
| `Text.ReplaceCharRemoves` | canary_cli/main.py:420 | after the replacement the replaced character is gone |
| `Text.Upper` | canary_cli/main.py:489 | `upper` keeps the length, upper-cases character by character and leaves no lower-case ASCII letter |
| `Text.Strip` | canary_cli/main.py:233 | `strip(chars)` returns the slice between the maximal leading and trailing runs of characters from the set |
| `Text.IsSubstring` | canary_cli/main.py:132 | definition of `'detail' in result` on a string: the text occurs at some position |
| `Text.IsSubstringAt` | canary_cli/main.py:132 | `'detail' in result` on a string finds `detail` wherever it occurs |
| `Text.Join` | canary_cli/main.py:606 | definition of `','.join(cors_hosts)` |
| `Text.SplitAllJoin` | canary_cli/main.py:606 | joining hosts free of the separator and splitting again gives the hosts back |
| `Transport.Classify` | canary_cli/main.py:81-89 | definition of what `request` does with one reply: return the body, exit 1 after the error lines, or crash on a missing `detail`, an undecodable body or an ill-shaped item; stated by `RaisedExits`, `ReturnsIffSuccess`, `ErrorStatusExits`, `UndecodableCrashes`, `ErrorBodyCrashes`, `PerItemLines`, `SingleMessage` and `FalsyDetailSilent` |
| `Transport.Second` | canary_cli/main.py:85 | definition of `e['loc'][1]`: the second element of a list or the second character of a string; anything else raises |
| `Transport.ItemLine` | canary_cli/main.py:85 | definition of the line for one `detail` element: an object with `loc` and `msg` whose `loc` has a second element, otherwise Python raises |
| `Transport.DetailLines` | canary_cli/main.py:84-85 | the loop over `detail` prints one line per element, in order, until the first element Python cannot format; it completes exactly when every element formats |
| `Transport.DetailLinesUnique` | canary_cli/main.py:84-85 | any line list and completion flag with the per-item properties of `DetailLines` is exactly its result |
| `Transport.RaisedExits` | canary_cli/main.py:75-80 | an exception from `requests` prints its type name and exits 1 without a reply being read |
| `Transport.UndecodableCrashes` | canary_cli/main.py:81-89 | a body that is not JSON crashes in `r.json()`, with nothing printed, whatever the status |
| `Transport.ErrorBodyCrashes` | canary_cli/main.py:81-88 | an error body crashes exactly when it is not an object, lacks `detail`, or has a truthy `detail` beside other keys that is not a list of well-formed items; the lines printed before a bad item are those of `DetailLines` |
| `Transport.ReturnsIffSuccess` | canary_cli/main.py:81-89 | the decoded body is returned exactly when the status is below 400 and the body decodes |
| `Transport.ErrorStatusExits` | canary_cli/main.py:81-88 | a status of 400 or above never returns, whatever the body holds |
| `Transport.PerItemLines` | canary_cli/main.py:83-85 | with more than one top-level key and well-formed items, exactly one `loc[1]: msg` line per `detail` item is printed, in order, then the process exits |
| `Transport.SingleMessage` | canary_cli/main.py:86-87 | with `detail` the only key and truthy, exactly one line holding `detail` is printed, then the process exits |
| `Transport.FalsyDetailSilent` | canary_cli/main.py:82-88 | a falsy `detail` prints nothing and the process still exits |
| `Transport.Passes` | canary_cli/main.py:131-135 | definition of what a handler reads from a successful reply: nothing, an object (`print_kv`, 115-128), an object with a key (`result['name']` at 439, `result['key']` at 490), or `print_result_details` at 608 and 615, which needs an object, or a list without `"detail"`, or a string not containing `detail` |
| `Transport.DetailInListOrTextStops` | canary_cli/main.py:131-135 | a successful list reply holding `"detail"`, or a string reply containing it, to a call whose reply goes through `print_result_details` ends the run right after that call |
| `Transport.WireOf` | canary_cli/main.py:74-76 | definition of the request actually sent: the verb, `api_url + "/" + path`, the bearer header and the body |
| `Transport.Run` | canary_cli/main.py:68-89 | definition of a command's run: calls in plan order, each through `request`, stopping at the first reply that exits or crashes; stated by `RunShape` |
| `Transport.RunShape` | canary_cli/main.py:68-89 | a run sends a prefix of the planned calls to `api_url/path`; it completes exactly when every reply is accepted, and otherwise stops at the first reply that is not |
| `Transport.RunCompletes` | canary_cli/main.py:68-89 | when every reply is accepted, every planned call is sent in order |
| `Transport.RunStopsAt` | canary_cli/main.py:81-88 | the first rejected reply is the last call sent |
| `Transport.Api.constructor` | canary_cli/main.py:64-66 | the client keeps the base URL and the `Bearer <key>` authorization |
| `Transport.Api.Request` | canary_cli/main.py:68-89 | the URL is `api_url + "/" + path` and the outcome is `Classify` of the reply |
| `Transport.Api.PrintDetail` | canary_cli/main.py:84-85 | the printing loop produces exactly the lines of `DetailLines` |
| `Transport.Api.Execute` | canary_cli/main.py:68-89 | sending a plan call by call gives exactly `Run` |
| `Settings.Config.constructor` | canary_cli/main.py:37-45 | the defaults (`http://localhost:8001`, `root`) on first run, else the stored map |
| `Settings.Config.Get` | canary_cli/main.py:55-56 | a present key gives its value; a missing key gives nothing (the `KeyError`) |
| `Settings.Config.Set` | canary_cli/main.py:58-60 | the key now holds the value and every other key is unchanged |
| `Table.EndsWith` | canary_cli/main.py:230 | definition of `field.endswith('_at')` |
| `Table.GithubChars` | canary_cli/main.py:233 | definition of the character set `strip('git@github.com:')` removes |
| `Table.Cell` | canary_cli/main.py:227-235 | definition of one cell: `-`, the time rendering, the stripped GitHub remote, the value, or a crash for a truthy non-string; stated by `CellEmpty`, `CellTimestamp`, `CellGithub`, `CellPlain` and `CellNotText` |
| `Table.CellEmpty` | canary_cli/main.py:228-229 | a missing or falsy field shows `-` |
| `Table.CellTimestamp` | canary_cli/main.py:230-231 | a non-empty `..._at` field shows its time rendering, before the GitHub rule is tried |
| `Table.CellPlain` | canary_cli/main.py:234-235 | any other non-empty string is shown unchanged |
| `Table.CellNotText` | canary_cli/main.py:228-235 | a truthy value that is not a string cannot be shown (`startswith` or `time_since` raises) |
| `Table.CellGithub` | canary_cli/main.py:232-233 | a GitHub remote loses at least its whole prefix; what is shown is a slice of the value that starts and ends outside the prefix's character set, and every character before and after it is in that set |
| `Table.CellGithubExample` | canary_cli/main.py:232-233 | `git@github.com:user/repo.git` is shown as `ser/rep` |
| `Table.Entries` | canary_cli/main.py:225-228 | definition of what `for r in result` walks over: list elements, object keys or string characters; only an object element has `.get`; other values cannot be iterated |
| `Table.EntryCell` | canary_cli/main.py:227-235 | definition of one cell of one entry: `Cell` for an object, a failure at `r.get` otherwise |
| `Table.PrintTable` | canary_cli/main.py:215-237 | any falsy reply gives `No Results`; otherwise upper-cased headers and one row per entry with one cell per field, or an exception exactly when the reply cannot be iterated or some cell cannot be formatted |
| `Table.NonListFails` | canary_cli/main.py:225-228 | a non-empty object or string reply walks over keys or characters, and every cell of them fails at `r.get` |
| `Commands.ResolveRemote` | canary_cli/main.py:406-410 | definition of the remote step shared with `project update` (460-464): a directory becomes its origin URL and keeps the branch, anything else goes through `parse_remote` |
| `Commands.GitOrigin` | canary_cli/main.py:336-346 | definition of `get_remote_from_git_config`: the origin URL of the directory, `''` when it has none |
| `Commands.NameField` | canary_cli/main.py:310 | definition of a name field (also line 420): the name with one character replaced, or `null` when missing or empty |
| `Commands.NameFieldNormalised` | canary_cli/main.py:310 | a sent name holds no replaced character and keeps its length; an empty name is sent as `null` |
| `Commands.AuthCreate` | canary_cli/main.py:281-315 | definition of `auth create`: the type and key chosen by `--import`, `--ssh`, `--pat` or the prompts, in that order; stated by `AuthCreateSendsOne`, `ImportWins`, `SshBeatsPat`, `PatFlag`, `AuthFromPrompts` and `AuthAbortsOnlyOnCancel` |
| `Commands.AuthChoice` | canary_cli/main.py:291-307 | definition of the `auth_type` and `auth_key` chosen: import file, then `--ssh`, then a non-empty `--pat`, then the method prompt and the `PAT` prompt; a cancelled prompt gives no choice |
| `Commands.KeyName` | canary_cli/main.py:291-295 | definition of the key name: the import file's name when no name was given |
| `Commands.AuthFromPrompts` | canary_cli/main.py:301-305 | with no option choosing, an `ssh` answer sends type `ssh` and no key; a `pat` answer sends type `pat` and the text typed at the `PAT` prompt |
| `Commands.AuthCreateSendsOne` | canary_cli/main.py:309-315 | `auth create` sends one POST to `auth` with exactly `name`, `auth_type` and `auth_key`; the name has no space |
| `Commands.ImportWins` | canary_cli/main.py:291-295 | an imported file decides everything whatever `--ssh`, `--pat` and the prompts say: type `ssh`, the file's text as key, the file's name when no name was given |
| `Commands.SshBeatsPat` | canary_cli/main.py:296-297 | without an import, `--ssh` wins over `--pat` and the prompts and sends no key |
| `Commands.PatFlag` | canary_cli/main.py:298-300 | a non-empty `--pat` gives type `pat` with that key and no prompt is consulted |
| `Commands.AuthAbortsOnlyOnCancel` | canary_cli/main.py:301-307 | `auth create` aborts only when no option chose the type and a prompt was cancelled |
| `Commands.ProjectCreate` | canary_cli/main.py:394-438 | definition of `project create`: the remote from the option or the prompt, resolved, then one POST; stated by the `ProjectCreate...` lemmas |
| `Commands.ProjectCreateNeedsRemote` | canary_cli/main.py:400-414 | with no remote and an empty answer nothing is sent; a cancelled prompt aborts too |
| `Commands.ProjectCreateBody` | canary_cli/main.py:400-438 | whenever anything is sent: one POST to `project` whose fields are exactly `name`, `remote`, `branch`, plus `key` exactly when `--key` was given, whatever the key prompt says; remote and branch resolved from `--remote` or else from the non-empty prompt answer; the name is the given one, or the working directory's for `.`, with no `/` |
| `Commands.ProjectCreateFromDirectory` | canary_cli/main.py:406-408 | a directory is replaced by its origin URL verbatim, `''` when there is none, and the branch is kept |
| `Commands.ProjectCreateWithoutKey` | canary_cli/main.py:419-435 | with a non-empty `--remote`, a name other than `.` and no `--key`, the request is exactly one POST whose body is the name field, the resolved remote and the resolved branch |
| `Commands.ProjectCreateScenario` | canary_cli/main.py:394-438 | `project create myapp --remote org/repo@dev` sends `{name: myapp, remote: git@github.com:org/repo.git, branch: dev}` |
| `Commands.Resolved` | canary_cli/main.py:460-464 | definition of the remote and branch `project update` settles on: unchanged without `--remote`, otherwise resolved |
| `Commands.SecretPut` | canary_cli/main.py:489 | definition of one secret PUT to `secret/<project>` with `key` and `value` (also line 504) |
| `Commands.SetSteps` | canary_cli/main.py:480-490 | definition of the `--set` calls: one secret PUT per item holding `=`, skipping the others; stated by the `SetSteps...` lemmas |
| `Commands.UnsetSteps` | canary_cli/main.py:492-496 | definition of the `--unset` calls: one DELETE per key; stated by `DeleteSecrets` |
| `Commands.ImportSteps` | canary_cli/main.py:499-505 | definition of the import calls: one secret PUT per pair; stated by `ImportStepsMatchFile` |
| `Commands.PutFields` | canary_cli/main.py:457-472 | definition of the project PUT body; stated by `PutFieldsExactly` |
| `Commands.ProjectPut` | canary_cli/main.py:457-477 | definition of the project PUT, sent only when the resolved remote, the branch or the key is non-empty; stated by `NoOriginNoPut`, `NoOriginEmptyRemote` and `ProjectRequest` |
| `Commands.Assignment` | canary_cli/main.py:483-489 | definition of one `--set` item: `(key.upper(), value)` split at the first `=`, or nothing for an item without `=` |
| `Commands.AssignmentOf` | canary_cli/main.py:483-489 | the key is the text before the first `=`, upper-cased; the value is the rest and may hold `=` |
| `Commands.SetStepsAppend` | canary_cli/main.py:480-490 | `--set` items are handled independently and in order: the calls for `xs + ys` are those for `xs` then those for `ys` |
| `Commands.SetStepsSkipsMalformed` | canary_cli/main.py:482-486 | an item without `=` is skipped and later items are still sent |
| `Commands.SetStepsOne` | canary_cli/main.py:483-490 | `KEY=value` becomes one PUT to `secret/<project>` with the upper-cased key and the value verbatim |
| `Commands.SetStepsCount` | canary_cli/main.py:480-490 | at most one call per item, and one per item when every item holds `=` |
| `Commands.PutFieldsExactly` | canary_cli/main.py:457-472 | the PUT body holds `remote` exactly when `--remote` was given, `key` exactly when non-empty, `branch` exactly when the resolved branch is non-empty, with the resolved values |
| `Commands.NoOriginNoPut` | canary_cli/main.py:460-474 | a directory without an origin, and no key or branch: no project PUT, although `--remote` was given |
| `Commands.NoOriginEmptyRemote` | canary_cli/main.py:460-476 | the same directory with a key: the PUT is sent with `remote: ""` |
| `Commands.ProjectRequest` | canary_cli/main.py:457-477 | building `data` field by field gives the project PUT, sent only when the resolved remote, the branch or the key is non-empty |
| `Commands.PushSecrets` | canary_cli/main.py:480-490 | the `--set` loop issues exactly the calls of `SetSteps` |
| `Commands.DeleteSecrets` | canary_cli/main.py:492-496 | the `--unset` loop issues one DELETE `secret/<project>/<key>` per key, keys as given |
| `Commands.ImportSecrets` | canary_cli/main.py:499-505 | the import loop issues one PUT per imported pair, in file order |
| `Commands.ProjectUpdate` | canary_cli/main.py:443-505 | with no option it aborts before any call; otherwise the project PUT comes first, then the set PUTs, the unset DELETEs and the imported PUTs |
| `Commands.ImportStepsMatchFile` | canary_cli/main.py:501-504 | N imported pairs give exactly N secret PUTs, key for key, case preserved |
| `Commands.CorsHosts` | canary_cli/main.py:604-606 | definition of `cors_hosts`: the hosts joined with `,`, or `null` when none was given |
| `Commands.CorsHostsRoundTrip` | canary_cli/main.py:604-607 | the joined `cors_hosts` field splits back into the given hosts when none holds `,` |
| `Commands.RedirectStep` | canary_cli/main.py:614 | definition of one redirect POST from the source to the page |
| `Commands.PageCreate` | canary_cli/main.py:599-615 | one page POST with the joined hosts or `null`, then one redirect POST per source, in order, each pointing at the page; each reply is read as `print_result_details` reads it |
| `Commands.PageDeploy` | canary_cli/main.py:635-649 | nothing is sent when PATH is missing (the `TypeError` of `isdir(None)`), names a directory (refused), or cannot be opened; otherwise one POST uploads the file to `upload/<fqdn>` |
| `Commands.PageDeployUploadsFile` | canary_cli/main.py:643-649 | the only call `page deploy` makes uploads a readable file that is not a directory |
| `Commands.Perform` | canary_cli/main.py:78-89 | an abort sends nothing and exits 1; a plan runs and the exit status is 0 exactly when every reply is accepted |

## Left out

- HTTP is an oracle: `requests.request` is replaced by one `Reply` per call. `Reply` is an exception name, or a status with a body that may fail to decode. Headers other than the bearer token, and the wire encoding of JSON, form data and files, are not modelled.
- Printed text is not modelled. Error lines are kept as structured `Line` values, not as rich markup. The output of `print_kv` and `console.status` is not modelled.
- `print_kv` can also crash on particular fields (`git_key`, `projects`). The model only requires the reply to be an object there.
- `time_since` is the parameter `since`. It depends on the wall clock, time zones and `humanize`, and its own failures on malformed dates are not modelled.
- `\w` in `GITHUB_REPO_PATTERN` is taken as ASCII letters, digits and `_`. Python also accepts non-ASCII letters and digits there.
- `str.upper` is ASCII only. Python also upper-cases non-ASCII letters, sometimes into longer text.
- JSON numbers are integers. Floats are not modelled.
- `Config.load`/`dump` (YAML files) and the directory creation are not modelled; only the in-memory map is. The aliasing of `DEFAULT_CONFIG` by the first-run map is not modelled.
- `get_remote_from_git_config` reads `.git/config` with `configparser`. It is the map `Host.origins`, missing meaning `''`. `os.path.isdir` is membership in `Host.dirs`. An origin section without a `url` (a `KeyError`) is not modelled.
- Reading the key file and the env file is not modelled; for the upload file only whether it can be opened (`Host.files`) is. `dotenv_values` is replaced by its ordered pairs (`EnvFile.pairs`).
- The unreachable key-selection branch of `project create` would first fetch `auth` for its choices. That request is not in the model's plan.
- The other commands are not modelled. These are the `list`/`view` commands, `auth delete`, `config set`/`unset`, `project delete`/`deploy`/`status`/`refresh-token`, `page delete`/`refresh-token`, and `redirect create`/`update`/`delete`. Most issue one request built from their arguments and render the reply. `auth delete`, `project delete` and `page delete` without a name first GET `auth`, `project` or `page` for the choices, then prompt (lines 325, 511, 621); a cancelled prompt sends nothing more, otherwise one DELETE follows.
- Opening a browser with `typer.launch` is not modelled: `project view --web` (lines 388-391) and `page deploy --view` (lines 655-656). For `page deploy` the model ends with the upload request.
- Replies are indexed by call number. The state of the server between calls is not modelled.
- Typer's argument parsing is not modelled. An absent list option and an empty list are treated alike.
