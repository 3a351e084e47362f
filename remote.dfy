/**
 * Remote-spec resolution: `GITHUB_REPO_PATTERN` and `parse_remote`.
 *
 * A spec `user/repo` or `user/repo@branch` is rewritten to the SSH remote
 * `git@github.com:user/repo.git`; a branch given explicitly is never replaced
 * by the embedded one. Anything the pattern does not match comes back as is.
 * The pattern's `\w` is taken to be ASCII letters, digits and `_`.
 */
module Remote {
  import opened Wrappers
  import opened Json
  import opened Text

  /** `\w`, restricted to ASCII. */
  predicate WordChar(c: char)
  {
    'a' <= c <= 'z' || 'A' <= c <= 'Z' || '0' <= c <= '9' || c == '_'
  }

  /** `[\w\d-]`: a character of a user or repository name. */
  predicate NameChar(c: char)
  {
    WordChar(c) || c == '-'
  }

  /** `[\w.\-/]`: a character of a branch. */
  predicate BranchChar(c: char)
  {
    WordChar(c) || c == '.' || c == '-' || c == '/'
  }

  predicate IsName(s: string)
  {
    |s| > 0 && forall i :: 0 <= i < |s| ==> NameChar(s[i])
  }

  predicate IsBranch(s: string)
  {
    |s| > 0 && forall i :: 0 <= i < |s| ==> BranchChar(s[i])
  }

  /** The named groups `user`, `repo` and the optional `branch` of a match. */
  datatype RepoSpec = RepoSpec(user: string, repo: string, branch: Option<string>)

  predicate WellFormed(m: RepoSpec)
  {
    IsName(m.user) && IsName(m.repo) && (m.branch.Some? ==> IsBranch(m.branch.value))
  }

  /** The text the groups spell, with the separators the pattern puts between them. */
  function Spelling(m: RepoSpec): string
  {
    m.user + "/" + m.repo + (if m.branch.Some? then "@" + m.branch.value else "")
  }

  /**
   * `re.match(GITHUB_REPO_PATTERN, s)` succeeds with groups `m`. The pattern is
   * anchored at both ends, and Python's `$` also matches just before a final
   * newline, so that newline is allowed after the spelling.
   */
  predicate FullMatch(s: string, m: RepoSpec)
  {
    WellFormed(m) && (s == Spelling(m) || s == Spelling(m) + "\n")
  }

  ghost predicate Matches(s: string)
  {
    exists m :: FullMatch(s, m)
  }

  /** The groups of `body` when it is exactly a spelling, found at the first `/` and the first `@`. */
  function MatchSpelling(body: string): (r: Option<RepoSpec>)
    ensures r.Some? ==> WellFormed(r.value) && Spelling(r.value) == body
  {
    match SplitOnce(body, '/')
    case None => None
    case Some((user, rest)) =>
      if !IsName(user) then None
      else
        match SplitOnce(rest, '@')
        case None =>
          if IsName(rest) then Some(RepoSpec(user, rest, None)) else None
        case Some((repo, branch)) =>
          if IsName(repo) && IsBranch(branch) then Some(RepoSpec(user, repo, Some(branch))) else None
  }

  /** The matcher: drops one final newline, then reads the groups off the rest. */
  function MatchRepo(s: string): (r: Option<RepoSpec>)
    ensures r.Some? ==> FullMatch(s, r.value)
  {
    if |s| > 0 && s[|s| - 1] == '\n' then
      assert s == s[..|s| - 1] + "\n";
      MatchSpelling(s[..|s| - 1])
    else
      MatchSpelling(s)
  }

  lemma NameHasNo(s: string, c: char)
    requires IsName(s)
    requires !NameChar(c)
    ensures c !in s
  {
    assert forall i :: 0 <= i < |s| ==> s[i] != c;
  }

  /** The matcher finds every match of the pattern, with the same groups: the match is unique. */
  lemma MatchComplete(s: string, m: RepoSpec)
    requires FullMatch(s, m)
    ensures MatchRepo(s) == Some(m)
  {
    var sp := Spelling(m);
    var tail := if m.branch.Some? then "@" + m.branch.value else "";
    assert sp == m.user + ['/'] + (m.repo + tail);
    assert |sp| > 0 && sp[|sp| - 1] != '\n' by {
      if m.branch.Some? {
        assert sp[|sp| - 1] == m.branch.value[|m.branch.value| - 1];
      } else {
        assert sp[|sp| - 1] == m.repo[|m.repo| - 1];
      }
    }
    if s == sp + "\n" {
      assert s[..|s| - 1] == sp;
    }
    NameHasNo(m.user, '/');
    SplitOnceAt(m.user, '/', m.repo + tail);
    NameHasNo(m.repo, '@');
    if m.branch.Some? {
      assert m.repo + tail == m.repo + ['@'] + m.branch.value;
      SplitOnceAt(m.repo, '@', m.branch.value);
    } else {
      assert m.repo + tail == m.repo;
    }
  }

  const GithubPrefix := "git@github.com:"

  /** The remote `parse_remote` writes for a matched spec. */
  function Canonical(user: string, repo: string): string
  {
    GithubPrefix + user + "/" + repo + ".git"
  }

  /**
   * `parse_remote(remote, branch)`: the pair `(remote, branch)` it returns.
   * `branch` is `None` when the option was not given.
   */
  function ParseRemote(remote: string, branch: Option<string>): (string, Option<string>)
  {
    match MatchRepo(remote)
    case None => (remote, branch)
    case Some(m) =>
      var chosen := if !TruthyText(branch) && m.branch.Some? then m.branch else branch;
      (Canonical(m.user, m.repo), chosen)
  }

  /** A matched spec becomes exactly the canonical GitHub SSH remote. */
  lemma ParseRemoteMatched(remote: string, branch: Option<string>, m: RepoSpec)
    requires FullMatch(remote, m)
    ensures ParseRemote(remote, branch).0 == "git@github.com:" + m.user + "/" + m.repo + ".git"
    ensures TruthyText(branch) ==> ParseRemote(remote, branch).1 == branch
    ensures !TruthyText(branch) && m.branch.Some? ==> ParseRemote(remote, branch).1 == m.branch
    ensures !TruthyText(branch) && m.branch.None? ==> ParseRemote(remote, branch).1 == branch
  {
    MatchComplete(remote, m);
  }

  /** Anything the pattern does not match is returned with the branch, both unchanged. */
  lemma ParseRemoteUnmatched(remote: string, branch: Option<string>)
    requires !Matches(remote)
    ensures ParseRemote(remote, branch) == (remote, branch)
  {
  }

  /** A non-empty branch argument is never overridden, whatever the remote is. */
  lemma ExplicitBranchWins(remote: string, branch: Option<string>)
    requires TruthyText(branch)
    ensures ParseRemote(remote, branch).1 == branch
  {
  }

  /** The embedded branch is taken only when the argument is empty and the spec has one. */
  lemma BranchChangesOnlyFromSpec(remote: string, branch: Option<string>)
    requires ParseRemote(remote, branch).1 != branch
    ensures !TruthyText(branch)
    ensures exists m :: FullMatch(remote, m) && m.branch.Some? && ParseRemote(remote, branch).1 == m.branch
  {
    var m := MatchRepo(remote).value;
    assert FullMatch(remote, m);
  }

  /** A canonical remote is not itself a spec: its first segment holds `@` and `:`. */
  lemma CanonicalUnmatched(user: string, repo: string)
    requires IsName(user) && IsName(repo)
    ensures MatchRepo(Canonical(user, repo)) == None
  {
    var c := Canonical(user, repo);
    assert c[|c| - 1] == 't';
    NameHasNo(user, '/');
    assert '/' !in GithubPrefix + user by {
      assert forall i :: 0 <= i < |GithubPrefix| ==> GithubPrefix[i] != '/';
    }
    assert c == (GithubPrefix + user) + ['/'] + (repo + ".git");
    SplitOnceAt(GithubPrefix + user, '/', repo + ".git");
    assert (GithubPrefix + user)[3] == '@';
  }

  /** Resolving an already resolved remote changes nothing. */
  lemma ParseRemoteIdempotent(remote: string, branch: Option<string>)
    ensures ParseRemote(ParseRemote(remote, branch).0, ParseRemote(remote, branch).1)
         == ParseRemote(remote, branch)
  {
    match MatchRepo(remote)
    case None =>
    case Some(m) =>
      CanonicalUnmatched(m.user, m.repo);
  }

  lemma CanonicalExample()
    ensures Canonical("org", "repo") == "git@github.com:org/repo.git"
  {
  }

  /** `org/repo@dev` with no branch option gives the GitHub remote and branch `dev`. */
  lemma ParseRemoteExample(spec: string)
    requires spec == "org/repo@dev"
    ensures ParseRemote(spec, None) == ("git@github.com:org/repo.git", Some("dev"))
  {
    var m := RepoSpec("org", "repo", Some("dev"));
    assert FullMatch(spec, m) by {
      assert IsName("org") && IsName("repo") && IsBranch("dev");
    }
    MatchComplete(spec, m);
    assert ParseRemote(spec, None) == (Canonical("org", "repo"), Some("dev"));
    CanonicalExample();
  }

  /** `$` lets one trailing newline through: the newline is dropped from the result. */
  lemma TrailingNewlineMatches(spec: string)
    requires spec == "org/repo\n"
    ensures ParseRemote(spec, Some("main")) == ("git@github.com:org/repo.git", Some("main"))
  {
    var m := RepoSpec("org", "repo", None);
    assert FullMatch(spec, m) by {
      assert IsName("org") && IsName("repo");
    }
    MatchComplete(spec, m);
    assert ParseRemote(spec, Some("main")) == (Canonical("org", "repo"), Some("main"));
    CanonicalExample();
  }
}
