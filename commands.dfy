/**
 * The command handlers that build request bodies: `auth create`,
 * `project create`, `project update`, `page create` and `page deploy`.
 *
 * A handler turns its arguments into a plan: either an abort before any
 * request (exit status 1), or the sequence of requests it makes, each with
 * what it then reads from the reply. `Transport.Run` sends such a plan.
 * Prompts, the filesystem and `.git/config` are inputs.
 */
module Commands {
  import opened Wrappers
  import opened Json
  import opened Text
  import opened Transport
  import Remote

  /** A prompt's answer; `Cancelled` is the `KeyboardInterrupt` raised by `unsafe_ask`. */
  datatype Answer<T> = Given(value: T) | Cancelled

  /** Why a command exits with status 1 before sending anything; `Uncaught` is a Python exception nobody catches. */
  datatype Abort = Refused(message: string) | Interrupted | Uncaught(exception: string)

  datatype Invocation = Aborted(reason: Abort) | Calls(steps: seq<Step>)

  /**
   * The local filesystem as the handlers see it: directories, files that can
   * be opened for reading, origin URLs in `.git/config`, and the working
   * directory's name.
   */
  datatype Host = Host(dirs: set<string>, files: set<string>, origins: map<string, string>, cwdName: string)

  /** `get_remote_from_git_config(path)`: the `url` of `[remote "origin"]`, or `''` when there is none. */
  function GitOrigin(host: Host, path: string): string
  {
    if path in host.origins then host.origins[path] else ""
  }

  /** A directory names its origin and leaves the branch alone; anything else goes through `parse_remote`. */
  function ResolveRemote(host: Host, remote: string, branch: Option<string>): (string, Option<string>)
  {
    if remote in host.dirs then (GitOrigin(host, remote), branch) else Remote.ParseRemote(remote, branch)
  }

  /** A name field: the name with `from` replaced by `to`, or `null` for a missing or empty name. */
  function NameField(name: Option<string>, from: char, to: char): Value
  {
    if TruthyText(name) then JStr(ReplaceChar(name.value, from, to)) else JNull
  }

  /** A non-null name field holds no `from` at all and keeps the length of the given name. */
  lemma NameFieldNormalised(name: Option<string>, from: char, to: char)
    requires from != to
    ensures NameField(name, from, to).JNull? <==> !TruthyText(name)
    ensures NameField(name, from, to).JStr? ==>
              from !in NameField(name, from, to).s && |NameField(name, from, to).s| == |name.value|
  {
    if TruthyText(name) {
      ReplaceCharRemoves(name.value, from, to);
    }
  }

  // ---------------------------------------------------------------- auth create

  datatype AuthMethod = Ssh | Pat

  /** An `--import` file: its name as given and its text. */
  datatype KeyFile = KeyFile(name: string, contents: string)

  /** The `auth_type` and `auth_key` `auth_create` settles on: import file, then `--ssh`, then `--pat`, then the prompts. */
  function AuthChoice(ssh: bool, pat: Option<string>, importFile: Option<KeyFile>,
                      chosenMethod: Answer<AuthMethod>, patText: Answer<string>): Answer<(string, Value)>
  {
    if importFile.Some? then Given(("ssh", JStr(importFile.value.contents)))
    else if ssh then Given(("ssh", JNull))
    else if TruthyText(pat) then Given(("pat", JStr(pat.value)))
    else
      match chosenMethod
      case Cancelled => Cancelled
      case Given(Ssh) => Given(("ssh", JNull))
      case Given(Pat) =>
        match patText
        case Cancelled => Cancelled
        case Given(text) => Given(("pat", JStr(text)))
  }

  /** The key name: an imported file supplies it when none was given. */
  function KeyName(name: Option<string>, importFile: Option<KeyFile>): Option<string>
  {
    if importFile.Some? && !TruthyText(name) then Some(importFile.value.name) else name
  }

  function AuthCreate(name: Option<string>, ssh: bool, pat: Option<string>, importFile: Option<KeyFile>,
                      chosenMethod: Answer<AuthMethod>, patText: Answer<string>): Invocation
  {
    match AuthChoice(ssh, pat, importFile, chosenMethod, patText)
    case Cancelled => Aborted(Interrupted)
    case Given((authType, authKey)) =>
      var data := map["name" := NameField(KeyName(name, importFile), ' ', '_'),
                      "auth_type" := JStr(authType),
                      "auth_key" := authKey];
      Calls([Step(Call(POST, "auth", JsonBody(data)), NeedsObject)])
  }

  /** The body `auth create` sends, when it sends one. */
  function AuthBody(inv: Invocation): map<string, Value>
    requires inv.Calls? && |inv.steps| == 1 && inv.steps[0].call.body.JsonBody?
  {
    inv.steps[0].call.body.fields
  }

  /**
   * `auth create` sends one POST to `auth` with exactly `name`, `auth_type`
   * and `auth_key`; the name carries no space, and is `null` when empty.
   */
  lemma AuthCreateSendsOne(name: Option<string>, ssh: bool, pat: Option<string>, importFile: Option<KeyFile>,
                           chosenMethod: Answer<AuthMethod>, patText: Answer<string>)
    requires AuthCreate(name, ssh, pat, importFile, chosenMethod, patText).Calls?
    ensures var inv := AuthCreate(name, ssh, pat, importFile, chosenMethod, patText);
      && |inv.steps| == 1 && inv.steps[0].call.verb == POST && inv.steps[0].call.path == "auth"
      && inv.steps[0].call.body.JsonBody?
      && AuthBody(inv).Keys == {"name", "auth_type", "auth_key"}
      && (AuthBody(inv)["name"].JNull? <==> !TruthyText(KeyName(name, importFile)))
      && (AuthBody(inv)["name"].JStr? ==> ' ' !in AuthBody(inv)["name"].s)
      && AuthBody(inv)["auth_type"] in {JStr("ssh"), JStr("pat")}
  {
    NameFieldNormalised(KeyName(name, importFile), ' ', '_');
  }

  /** An imported key file wins over `--ssh`, `--pat` and the prompts: type `ssh`, the file's text as key. */
  lemma ImportWins(name: Option<string>, ssh: bool, pat: Option<string>, f: KeyFile,
                   chosenMethod: Answer<AuthMethod>, patText: Answer<string>,
                   ssh': bool, pat': Option<string>, chosenMethod': Answer<AuthMethod>, patText': Answer<string>)
    ensures AuthCreate(name, ssh, pat, Some(f), chosenMethod, patText) == AuthCreate(name, ssh', pat', Some(f), chosenMethod', patText')
    ensures var inv := AuthCreate(name, ssh, pat, Some(f), chosenMethod, patText);
      && inv.Calls?
      && AuthBody(inv)["auth_type"] == JStr("ssh") && AuthBody(inv)["auth_key"] == JStr(f.contents)
      && (!TruthyText(name) && f.name != "" ==> AuthBody(inv)["name"] == JStr(ReplaceChar(f.name, ' ', '_')))
  {
  }

  /** Without an import file, `--ssh` wins over `--pat` and the prompts, and sends no key. */
  lemma SshBeatsPat(name: Option<string>, pat: Option<string>, chosenMethod: Answer<AuthMethod>, patText: Answer<string>,
                    pat': Option<string>, chosenMethod': Answer<AuthMethod>, patText': Answer<string>)
    ensures AuthCreate(name, true, pat, None, chosenMethod, patText) == AuthCreate(name, true, pat', None, chosenMethod', patText')
    ensures var inv := AuthCreate(name, true, pat, None, chosenMethod, patText);
      inv.Calls? && AuthBody(inv)["auth_type"] == JStr("ssh") && AuthBody(inv)["auth_key"] == JNull
  {
  }

  /** A non-empty `--pat` is the key of type `pat` unless an import file or `--ssh` came first; no prompt is shown. */
  lemma PatFlag(name: Option<string>, pat: Option<string>, chosenMethod: Answer<AuthMethod>, patText: Answer<string>,
                chosenMethod': Answer<AuthMethod>, patText': Answer<string>)
    requires TruthyText(pat)
    ensures AuthCreate(name, false, pat, None, chosenMethod, patText) == AuthCreate(name, false, pat, None, chosenMethod', patText')
    ensures var inv := AuthCreate(name, false, pat, None, chosenMethod, patText);
      inv.Calls? && AuthBody(inv)["auth_type"] == JStr("pat") && AuthBody(inv)["auth_key"] == JStr(pat.value)
  {
  }

  /** `auth create` only aborts when no option chose the type and a prompt was cancelled. */
  lemma AuthAbortsOnlyOnCancel(name: Option<string>, ssh: bool, pat: Option<string>, importFile: Option<KeyFile>,
                               chosenMethod: Answer<AuthMethod>, patText: Answer<string>)
    requires AuthCreate(name, ssh, pat, importFile, chosenMethod, patText).Aborted?
    ensures AuthCreate(name, ssh, pat, importFile, chosenMethod, patText).reason == Interrupted
    ensures importFile.None? && !ssh && !TruthyText(pat)
    ensures chosenMethod == Cancelled || (chosenMethod == Given(Pat) && patText == Cancelled)
  {
  }

  /**
   * With no option choosing the type, the prompts decide: `ssh` sends no key,
   * `pat` sends the text typed at the `PAT` prompt.
   */
  lemma AuthFromPrompts(name: Option<string>, pat: Option<string>, patText: Answer<string>, text: string)
    requires !TruthyText(pat)
    ensures var inv := AuthCreate(name, false, pat, None, Given(Ssh), patText);
      inv.Calls? && AuthBody(inv)["auth_type"] == JStr("ssh") && AuthBody(inv)["auth_key"] == JNull
    ensures var inv := AuthCreate(name, false, pat, None, Given(Pat), Given(text));
      inv.Calls? && AuthBody(inv)["auth_type"] == JStr("pat") && AuthBody(inv)["auth_key"] == JStr(text)
  {
  }

  // ------------------------------------------------------------- project create

  /** `complete_config_keys()`: a constant, non-empty list. */
  const ConfigKeyCompletions: seq<string> := ["DISCORD_WEBHOOK"]

  /**
   * `project_create`. `remotePrompt` answers "Enter Git Remote"; `keyPrompt`
   * answers the key selection, which the code guards with the constant list
   * above, so it is never shown.
   */
  function ProjectCreate(name: Option<string>, remote: Option<string>, branch: Option<string>, key: Option<string>,
                         host: Host, remotePrompt: Answer<string>, keyPrompt: Answer<string>): Invocation
  {
    var entered := if TruthyText(remote) then Given(remote.value) else remotePrompt;
    match entered
    case Cancelled => Aborted(Interrupted)
    case Given(spec) =>
      if spec == "" then Aborted(Refused("no remote found"))
      else
        var resolved := ResolveRemote(host, spec, branch);
        var projectName := if name == Some(".") then Some(host.cwdName) else name;
        var data := map["name" := NameField(projectName, '/', '-'),
                        "remote" := JStr(resolved.0),
                        "branch" := TextOrNull(resolved.1)];
        var chosen :=
          if TruthyText(key) || |ConfigKeyCompletions| > 0 then Given(key)
          else match keyPrompt
            case Cancelled => Cancelled
            case Given(k) => Given(Some(k));
        match chosen
        case Cancelled => Aborted(Interrupted)
        case Given(k) =>
          var body := if TruthyText(k) then data["key" := JStr(k.value)] else data;
          Calls([Step(Call(POST, "project", JsonBody(body)), NeedsKey("name"))])
  }

  /** With no remote given and an empty answer, nothing is sent; a cancelled prompt aborts too. */
  lemma ProjectCreateNeedsRemote(name: Option<string>, remote: Option<string>, branch: Option<string>, key: Option<string>,
                                 host: Host, keyPrompt: Answer<string>)
    requires !TruthyText(remote)
    ensures ProjectCreate(name, remote, branch, key, host, Given(""), keyPrompt) == Aborted(Refused("no remote found"))
    ensures ProjectCreate(name, remote, branch, key, host, Cancelled, keyPrompt) == Aborted(Interrupted)
  {
  }

  /**
   * Whenever `project create` sends anything, it sends one POST to `project`
   * whose name holds no `/`, whose remote and branch are resolved from the
   * `--remote` option or else from the answer to the remote prompt, whose
   * name is the given one (the working directory's for `.`), and which holds
   * `key` exactly when `--key` was given: the key prompt never matters.
   */
  lemma ProjectCreateBody(name: Option<string>, remote: Option<string>, branch: Option<string>, key: Option<string>,
                          host: Host, remotePrompt: Answer<string>, keyPrompt: Answer<string>, keyPrompt': Answer<string>)
    requires ProjectCreate(name, remote, branch, key, host, remotePrompt, keyPrompt).Calls?
    ensures ProjectCreate(name, remote, branch, key, host, remotePrompt, keyPrompt)
         == ProjectCreate(name, remote, branch, key, host, remotePrompt, keyPrompt')
    ensures TruthyText(remote) || remotePrompt.Given?
    ensures var spec := if TruthyText(remote) then remote.value else remotePrompt.value;
      var inv := ProjectCreate(name, remote, branch, key, host, remotePrompt, keyPrompt);
      var body := inv.steps[0].call.body.fields;
      && spec != ""
      && |inv.steps| == 1
      && inv.steps[0].call.verb == POST && inv.steps[0].call.path == "project"
      && body.Keys == {"name", "remote", "branch"} + (if TruthyText(key) then {"key"} else {})
      && ("key" in body <==> TruthyText(key))
      && body["name"] == NameField(if name == Some(".") then Some(host.cwdName) else name, '/', '-')
      && body["remote"] == JStr(ResolveRemote(host, spec, branch).0)
      && body["branch"] == TextOrNull(ResolveRemote(host, spec, branch).1)
      && (body["name"].JStr? ==> '/' !in body["name"].s)
  {
    var projectName := if name == Some(".") then Some(host.cwdName) else name;
    NameFieldNormalised(projectName, '/', '-');
  }

  /** A directory is replaced by its origin URL verbatim, even `''` when it has none; the branch is kept. */
  lemma ProjectCreateFromDirectory(name: Option<string>, dir: string, branch: Option<string>, key: Option<string>,
                                   host: Host, remotePrompt: Answer<string>, keyPrompt: Answer<string>)
    requires dir != "" && dir in host.dirs
    ensures var inv := ProjectCreate(name, Some(dir), branch, key, host, remotePrompt, keyPrompt);
      && inv.Calls?
      && inv.steps[0].call.body.fields["remote"] == JStr(GitOrigin(host, dir))
      && inv.steps[0].call.body.fields["branch"] == TextOrNull(branch)
  {
  }

  /** `project create myapp --remote org/repo@dev` with no key: name, GitHub remote and branch `dev`, no key. */
  lemma ProjectCreateScenario(spec: string, host: Host, remotePrompt: Answer<string>, keyPrompt: Answer<string>)
    requires spec == "org/repo@dev" && spec !in host.dirs
    ensures ProjectCreate(Some("myapp"), Some(spec), None, None, host, remotePrompt, keyPrompt)
         == Calls([Step(Call(POST, "project", JsonBody(map["name" := JStr("myapp"),
                                                          "remote" := JStr("git@github.com:org/repo.git"),
                                                          "branch" := JStr("dev")])),
                        NeedsKey("name"))])
  {
    ScenarioFields(spec, host);
    ProjectCreateWithoutKey(Some("myapp"), spec, None, host, remotePrompt, keyPrompt);
  }

  /** The two resolved fields of the scenario above. */
  lemma ScenarioFields(spec: string, host: Host)
    requires spec == "org/repo@dev" && spec !in host.dirs
    ensures ResolveRemote(host, spec, None) == ("git@github.com:org/repo.git", Some("dev"))
    ensures NameField(Some("myapp"), '/', '-') == JStr("myapp")
  {
    Remote.ParseRemoteExample(spec);
    ReplaceCharAbsent("myapp", '/', '-');
  }

  /** Without `--key`, the body holds exactly the name, the resolved remote and the resolved branch. */
  lemma ProjectCreateWithoutKey(name: Option<string>, remote: string, branch: Option<string>,
                                host: Host, remotePrompt: Answer<string>, keyPrompt: Answer<string>)
    requires remote != "" && name != Some(".")
    ensures ProjectCreate(name, Some(remote), branch, None, host, remotePrompt, keyPrompt)
         == Calls([Step(Call(POST, "project", JsonBody(map["name" := NameField(name, '/', '-'),
                                                          "remote" := JStr(ResolveRemote(host, remote, branch).0),
                                                          "branch" := TextOrNull(ResolveRemote(host, remote, branch).1)])),
                        NeedsKey("name"))])
  {
  }

  // ------------------------------------------------------------- project update

  /** `(key.upper(), value)` for one `--set` item, or `None` for an item without `=`, which is skipped. */
  function Assignment(item: string): Option<(string, string)>
  {
    match SplitOnce(item, '=')
    case None => None
    case Some((k, v)) => Some((Upper(k), v))
  }

  /** The key is the text before the FIRST `=`, upper-cased; the value is all the rest and may hold `=`. */
  lemma AssignmentOf(key: string, value: string)
    requires '=' !in key
    ensures Assignment(key + "=" + value) == Some((Upper(key), value))
  {
    SplitOnceAt(key, '=', value);
  }

  /** A PUT of one secret of `project`. */
  function SecretPut(project: string, key: string, value: Value, after: Check): Step
  {
    Step(Call(PUT, "secret/" + project, JsonBody(map["key" := JStr(key), "value" := value])), after)
  }

  /** The requests the `--set` loop makes: one per item holding `=`, in order; the handler then reads `result['key']`. */
  function SetSteps(project: string, items: seq<string>): seq<Step>
  {
    if items == [] then []
    else
      var last := Assignment(items[|items| - 1]);
      SetSteps(project, items[..|items| - 1])
        + (if last.Some? then [SecretPut(project, last.value.0, JStr(last.value.1), NeedsKey("key"))] else [])
  }

  /** Items are handled independently: the requests for `xs + ys` are those for `xs`, then those for `ys`. */
  lemma {:induction false} SetStepsAppend(project: string, xs: seq<string>, ys: seq<string>)
    ensures SetSteps(project, xs + ys) == SetSteps(project, xs) + SetSteps(project, ys)
    decreases |ys|
  {
    if ys == [] {
      assert xs + ys == xs;
    } else {
      assert (xs + ys)[..|xs + ys| - 1] == xs + ys[..|ys| - 1];
      SetStepsAppend(project, xs, ys[..|ys| - 1]);
    }
  }

  /** A malformed item is skipped and the items after it are still sent. */
  lemma SetStepsSkipsMalformed(project: string, xs: seq<string>, item: string, ys: seq<string>)
    requires '=' !in item
    ensures SetSteps(project, xs + [item] + ys) == SetSteps(project, xs + ys)
  {
    SetStepsAppend(project, xs + [item], ys);
    SetStepsAppend(project, xs, [item]);
    assert [item][..0] == [];
    SetStepsAppend(project, xs, ys);
  }

  /** A well-formed item `KEY=value` becomes one PUT with the upper-cased key and the verbatim value. */
  lemma SetStepsOne(project: string, key: string, value: string)
    requires '=' !in key
    ensures SetSteps(project, [key + "=" + value]) == [SecretPut(project, Upper(key), JStr(value), NeedsKey("key"))]
  {
    AssignmentOf(key, value);
    assert [key + "=" + value][..0] == [];
  }

  /** At most one request per item, and exactly one per item when every item holds `=`. */
  lemma {:induction false} SetStepsCount(project: string, items: seq<string>)
    ensures |SetSteps(project, items)| <= |items|
    ensures (forall i :: 0 <= i < |items| ==> '=' in items[i]) ==> |SetSteps(project, items)| == |items|
  {
    if items != [] {
      SetStepsCount(project, items[..|items| - 1]);
    }
  }

  /** The `--unset` loop: one DELETE of `secret/<project>/<key>` per key, keys as given. */
  function UnsetSteps(project: string, keys: seq<string>): seq<Step>
  {
    seq(|keys|, i requires 0 <= i < |keys| => Step(Call(DELETE, "secret/" + project + "/" + keys[i], NoBody), Ignore))
  }

  /** An `--import-env` file: its name and the pairs `dotenv_values` reads from it, in file order. */
  datatype EnvFile = EnvFile(name: string, pairs: seq<(string, Option<string>)>)

  function EnvPairs(file: Option<EnvFile>): seq<(string, Option<string>)>
  {
    if file.Some? then file.value.pairs else []
  }

  /** The import loop: one PUT per pair, keys NOT upper-cased, a value-less line sent as `null`. */
  function ImportSteps(project: string, pairs: seq<(string, Option<string>)>): seq<Step>
  {
    seq(|pairs|, i requires 0 <= i < |pairs| => SecretPut(project, pairs[i].0, TextOrNull(pairs[i].1), Ignore))
  }

  /** `remote` and `branch` after resolution; a remote that was not given stays as it was. */
  function Resolved(host: Host, remote: Option<string>, branch: Option<string>): (Option<string>, Option<string>)
  {
    if TruthyText(remote) then
      var r := ResolveRemote(host, remote.value, branch);
      (Some(r.0), r.1)
    else (remote, branch)
  }

  /** The body of the project PUT: `remote` when one was given, then `key` and `branch` when non-empty. */
  function PutFields(host: Host, remote: Option<string>, key: Option<string>, branch: Option<string>): map<string, Value>
  {
    var r := Resolved(host, remote, branch);
    var withRemote: map<string, Value> := if TruthyText(remote) then map["remote" := JStr(r.0.value)] else map[];
    var withKey := if TruthyText(key) then withRemote["key" := JStr(key.value)] else withRemote;
    if TruthyText(r.1) then withKey["branch" := JStr(r.1.value)] else withKey
  }

  /** The project PUT, sent only when the resolved remote, the branch or the key is non-empty. */
  function ProjectPut(project: string, host: Host, remote: Option<string>, key: Option<string>, branch: Option<string>): seq<Step>
  {
    var r := Resolved(host, remote, branch);
    if TruthyText(r.0) || TruthyText(r.1) || TruthyText(key) then
      [Step(Call(PUT, "project/" + project, JsonBody(PutFields(host, remote, key, branch))), NeedsObject)]
    else []
  }

  /**
   * Which fields the PUT body holds. `remote` is there whenever `--remote`
   * was given, even when a directory without an origin resolved it to `''`.
   */
  lemma PutFieldsExactly(host: Host, remote: Option<string>, key: Option<string>, branch: Option<string>)
    ensures var body := PutFields(host, remote, key, branch);
      var r := Resolved(host, remote, branch);
      && body.Keys <= {"remote", "key", "branch"}
      && ("remote" in body <==> TruthyText(remote))
      && ("key" in body <==> TruthyText(key))
      && ("branch" in body <==> TruthyText(r.1))
      && ("remote" in body ==> body["remote"] == JStr(r.0.value))
      && ("key" in body ==> body["key"] == JStr(key.value))
      && ("branch" in body ==> body["branch"] == JStr(r.1.value))
  {
  }

  /** A directory without an origin and no key or branch: `--remote` was given, yet no PUT is sent. */
  lemma NoOriginNoPut(project: string, host: Host, dir: string, key: Option<string>, branch: Option<string>)
    requires dir != "" && dir in host.dirs && dir !in host.origins
    requires !TruthyText(key) && !TruthyText(branch)
    ensures ProjectPut(project, host, Some(dir), key, branch) == []
  {
  }

  /** The same directory with a key: the PUT goes out with `remote` set to `''`. */
  lemma NoOriginEmptyRemote(project: string, host: Host, dir: string, key: Option<string>, branch: Option<string>)
    requires dir != "" && dir in host.dirs && dir !in host.origins && TruthyText(key)
    ensures |ProjectPut(project, host, Some(dir), key, branch)| == 1
    ensures ProjectPut(project, host, Some(dir), key, branch)[0].call.body.fields["remote"] == JStr("")
  {
  }

  /** The `--set` loop of `project_update`. */
  method PushSecrets(project: string, sets: seq<string>) returns (steps: seq<Step>)
    ensures steps == SetSteps(project, sets)
  {
    steps := [];
    var i := 0;
    while i < |sets|
      invariant 0 <= i <= |sets|
      invariant steps == SetSteps(project, sets[..i])
    {
      var assignment := Assignment(sets[i]);
      ghost var added := if assignment.Some? then [SecretPut(project, assignment.value.0, JStr(assignment.value.1), NeedsKey("key"))] else [];
      assert SetSteps(project, sets[..i + 1]) == SetSteps(project, sets[..i]) + added by {
        assert sets[..i + 1][..i] == sets[..i];
        assert sets[..i + 1][i] == sets[i];
      }
      if assignment.Some? {
        steps := steps + [SecretPut(project, assignment.value.0, JStr(assignment.value.1), NeedsKey("key"))];
      }
      i := i + 1;
    }
    assert sets[..|sets|] == sets;
  }

  /** The `--unset` loop of `project_update`. */
  method DeleteSecrets(project: string, keys: seq<string>) returns (steps: seq<Step>)
    ensures steps == UnsetSteps(project, keys)
  {
    steps := [];
    var i := 0;
    while i < |keys|
      invariant 0 <= i <= |keys|
      invariant steps == UnsetSteps(project, keys[..i])
    {
      steps := steps + [Step(Call(DELETE, "secret/" + project + "/" + keys[i], NoBody), Ignore)];
      i := i + 1;
    }
    assert keys[..|keys|] == keys;
  }

  /** The import loop of `project_update`. */
  method ImportSecrets(project: string, pairs: seq<(string, Option<string>)>) returns (steps: seq<Step>)
    ensures steps == ImportSteps(project, pairs)
  {
    steps := [];
    var i := 0;
    while i < |pairs|
      invariant 0 <= i <= |pairs|
      invariant steps == ImportSteps(project, pairs[..i])
    {
      steps := steps + [SecretPut(project, pairs[i].0, TextOrNull(pairs[i].1), Ignore)];
      i := i + 1;
    }
    assert pairs[..|pairs|] == pairs;
  }

  /** The first part of `project_update`: builds the `data` dict field by field and sends it if there is anything to send. */
  method ProjectRequest(project: string, host: Host, remote: Option<string>, key: Option<string>, branch: Option<string>)
    returns (steps: seq<Step>)
    ensures steps == ProjectPut(project, host, remote, key, branch)
  {
    var data: map<string, Value> := map[];
    var newRemote, newBranch := remote, branch;
    if TruthyText(remote) {
      var resolved := ResolveRemote(host, remote.value, branch);
      newRemote, newBranch := Some(resolved.0), resolved.1;
      data := data["remote" := JStr(resolved.0)];
    }
    assert (newRemote, newBranch) == Resolved(host, remote, branch);
    if TruthyText(key) {
      data := data["key" := JStr(key.value)];
    }
    if TruthyText(newBranch) {
      data := data["branch" := JStr(newBranch.value)];
    }
    steps := [];
    if TruthyText(newRemote) || TruthyText(newBranch) || TruthyText(key) {
      steps := [Step(Call(PUT, "project/" + project, JsonBody(data)), NeedsObject)];
    }
  }

  /**
   * `project_update`: with no option at all it exits before any request;
   * otherwise it sends the project PUT (if any) first, then the `--set`
   * PUTs, the `--unset` DELETEs and the imported PUTs, in that order.
   */
  method ProjectUpdate(project: string, remote: Option<string>, key: Option<string>, branch: Option<string>,
                       sets: seq<string>, unsets: seq<string>, envFile: Option<EnvFile>, host: Host)
    returns (inv: Invocation)
    ensures inv.Aborted? <==>
              !(TruthyText(remote) || TruthyText(key) || TruthyText(branch) || sets != [] || unsets != [] || envFile.Some?)
    ensures inv.Aborted? ==> inv.reason == Refused("option required: --help")
    ensures inv.Calls? ==>
              inv.steps == ProjectPut(project, host, remote, key, branch) + SetSteps(project, sets)
                           + UnsetSteps(project, unsets) + ImportSteps(project, EnvPairs(envFile))
  {
    if !(TruthyText(remote) || TruthyText(key) || TruthyText(branch) || sets != [] || unsets != [] || envFile.Some?) {
      return Aborted(Refused("option required: --help"));
    }
    var steps := ProjectRequest(project, host, remote, key, branch);
    var pushed := PushSecrets(project, sets);
    var deleted := DeleteSecrets(project, unsets);
    var imported := ImportSecrets(project, EnvPairs(envFile));
    steps := steps + pushed + deleted + imported;
    return Calls(steps);
  }

  /** An env file with N pairs yields exactly N secret PUTs, key for key, case preserved. */
  lemma ImportStepsMatchFile(project: string, pairs: seq<(string, Option<string>)>)
    ensures |ImportSteps(project, pairs)| == |pairs|
    ensures forall i :: 0 <= i < |pairs| ==>
              ImportSteps(project, pairs)[i].call.path == "secret/" + project
              && ImportSteps(project, pairs)[i].call.body.fields["key"] == JStr(pairs[i].0)
  {
  }

  // ---------------------------------------------------------------- page create

  /** `cors_hosts`: the hosts joined with `,`, or `null` when none was given. */
  function CorsHosts(cors: seq<string>): Value
  {
    if cors != [] then JStr(Join(cors, ',')) else JNull
  }

  /** Hosts free of `,` can be read back from the joined field. */
  lemma CorsHostsRoundTrip(cors: seq<string>)
    requires cors != []
    requires forall i :: 0 <= i < |cors| ==> ',' !in cors[i]
    ensures CorsHosts(cors).JStr? && SplitAll(CorsHosts(cors).s, ',') == cors
  {
    SplitAllJoin(cors, ',');
  }

  function RedirectStep(source: string, fqdn: string): Step
  {
    Step(Call(POST, "redirect", JsonBody(map["source" := JStr(source), "destination" := JStr(fqdn)])), NeedsContainer)
  }

  /** `page_create`: the page POST, then one redirect POST per `--redirect` source, in order, each pointing at the page. */
  method PageCreate(fqdn: string, cors: seq<string>, redirects: seq<string>) returns (steps: seq<Step>)
    ensures |steps| == 1 + |redirects|
    ensures steps[0] == Step(Call(POST, "page", JsonBody(map["fqdn" := JStr(fqdn), "cors_hosts" := CorsHosts(cors)])),
                             NeedsContainer)
    ensures forall i :: 0 <= i < |redirects| ==> steps[i + 1] == RedirectStep(redirects[i], fqdn)
  {
    var hosts := JNull;
    if cors != [] {
      hosts := JStr(Join(cors, ','));
    }
    steps := [Step(Call(POST, "page", JsonBody(map["fqdn" := JStr(fqdn), "cors_hosts" := hosts])), NeedsContainer)];
    var i := 0;
    while i < |redirects|
      invariant 0 <= i <= |redirects|
      invariant |steps| == 1 + i
      invariant steps[0] == Step(Call(POST, "page", JsonBody(map["fqdn" := JStr(fqdn), "cors_hosts" := CorsHosts(cors)])),
                                 NeedsContainer)
      invariant forall k :: 0 <= k < i ==> steps[k + 1] == RedirectStep(redirects[k], fqdn)
    {
      steps := steps + [Step(Call(POST, "redirect", JsonBody(map["source" := JStr(redirects[i]), "destination" := JStr(fqdn)])),
                             NeedsContainer)];
      i := i + 1;
    }
  }

  // ---------------------------------------------------------------- page deploy

  /**
   * `page_deploy`: a missing PATH argument makes `os.path.isdir(None)` raise
   * `TypeError`; a directory is refused; a path that cannot be opened makes
   * `open` raise. Only a readable file is uploaded, to `upload/<fqdn>`.
   */
  function PageDeploy(fqdn: string, path: Option<string>, host: Host): (inv: Invocation)
    ensures path.None? ==> inv == Aborted(Uncaught("TypeError"))
    ensures inv.Calls? <==> path.Some? && path.value !in host.dirs && path.value in host.files
    ensures inv.Calls? ==> inv.steps == [Step(Call(POST, "upload/" + fqdn, Upload(path.value)), Ignore)]
    ensures inv.Aborted? && inv.reason.Refused? ==> path.Some? && path.value in host.dirs
  {
    match path
    case None => Aborted(Uncaught("TypeError"))
    case Some(p) =>
      if p in host.dirs then Aborted(Refused("can't directory yet, please tar cvf payload.tar folder/"))
      else if p !in host.files then Aborted(Uncaught("FileNotFoundError"))
      else Calls([Step(Call(POST, "upload/" + fqdn, Upload(p)), Ignore)])
  }

  /** Whatever is uploaded is a readable file that is not a directory, and nothing else is sent. */
  lemma PageDeployUploadsFile(fqdn: string, path: Option<string>, host: Host, i: nat)
    requires PageDeploy(fqdn, path, host).Calls? && i < |PageDeploy(fqdn, path, host).steps|
    ensures var c := PageDeploy(fqdn, path, host).steps[i].call;
      && i == 0 && c.verb == POST && c.path == "upload/" + fqdn
      && c.body.Upload? && c.body.file in host.files && c.body.file !in host.dirs
  {
  }

  // ------------------------------------------------------------------ dispatch

  /**
   * One invocation from plan to exit status: an abort sends nothing and exits
   * 1; otherwise the plan runs and the exit status is 0 exactly when every
   * call went through.
   */
  method Perform(api: Api, inv: Invocation, replies: seq<Reply>) returns (issued: seq<Wire>, exitCode: int)
    requires inv.Calls? ==> |replies| >= |inv.steps|
    ensures inv.Aborted? ==> issued == [] && exitCode == 1
    ensures inv.Calls? ==> issued == Run(api.apiUrl, api.authorization, inv.steps, replies).issued
    ensures exitCode == 0 <==> inv.Calls? && forall i :: 0 <= i < |inv.steps| ==> Accepted(inv.steps[i], replies[i])
    ensures exitCode == 0 || exitCode == 1
  {
    if inv.Aborted? {
      return [], 1;
    }
    var trace := api.Execute(inv.steps, replies);
    RunShape(api.apiUrl, api.authorization, inv.steps, replies);
    issued := trace.issued;
    exitCode := if trace.final.Completed? then 0 else 1;
  }
}
