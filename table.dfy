/**
 * The cell rule of `print_table`: what each listing shows for one field of one
 * row. `since` stands for `time_since`, whose result depends on the clock and
 * is not modelled.
 */
module Table {
  import opened Wrappers
  import opened Json
  import opened Text
  import Remote

  /** The characters `str.strip('git@github.com:')` removes: a set, not a prefix. */
  function GithubChars(): set<char>
  {
    set c | c in Remote.GithubPrefix
  }

  predicate EndsWith(s: string, suffix: string)
  {
    |suffix| <= |s| && s[|s| - |suffix|..] == suffix
  }

  /**
   * One cell, or `None` where Python raises: a truthy value that is not a
   * string has no `startswith`, and `time_since` needs a string.
   */
  function Cell(row: map<string, Value>, field: string, since: string -> string): Option<string>
  {
    if field !in row || !Truthy(row[field]) then Some("-")
    else if EndsWith(field, "_at") then
      if row[field].JStr? then Some(since(row[field].s)) else None
    else if !row[field].JStr? then None
    else if Remote.GithubPrefix <= row[field].s then Some(Strip(row[field].s, GithubChars()))
    else Some(row[field].s)
  }

  /** A missing or falsy field shows `-`, whatever the field's name. */
  lemma CellEmpty(row: map<string, Value>, field: string, since: string -> string)
    requires field !in row || !Truthy(row[field])
    ensures Cell(row, field, since) == Some("-")
  {
  }

  /** A `..._at` field goes through the time rendering, even when it holds a GitHub remote. */
  lemma CellTimestamp(row: map<string, Value>, field: string, s: string, since: string -> string)
    requires field in row && row[field] == JStr(s) && s != ""
    requires EndsWith(field, "_at")
    ensures Cell(row, field, since) == Some(since(s))
  {
  }

  /** Any other non-empty string is shown unchanged. */
  lemma CellPlain(row: map<string, Value>, field: string, s: string, since: string -> string)
    requires field in row && row[field] == JStr(s) && s != ""
    requires !EndsWith(field, "_at") && !(Remote.GithubPrefix <= s)
    ensures Cell(row, field, since) == Some(s)
  {
  }

  /** A truthy value that is not a string cannot be shown: Python raises. */
  lemma CellNotText(row: map<string, Value>, field: string, since: string -> string)
    requires field in row && Truthy(row[field]) && !row[field].JStr?
    ensures Cell(row, field, since).None?
  {
  }

  /**
   * A GitHub remote is shown with its whole prefix removed and then some more:
   * every further leading or trailing character that occurs in
   * `git@github.com:` goes too, so what is left is a slice of the text after
   * the prefix that starts and ends with characters outside that set, and
   * everything after the slice belongs to the set.
   */
  lemma {:induction false} CellGithub(row: map<string, Value>, field: string, s: string, since: string -> string)
    requires field in row && row[field] == JStr(s)
    requires !EndsWith(field, "_at") && Remote.GithubPrefix <= s
    ensures Cell(row, field, since).Some?
    ensures var c := Cell(row, field, since).value;
      && Lead(s, GithubChars()) >= |Remote.GithubPrefix|
      && c == s[Lead(s, GithubChars())..Lead(s, GithubChars()) + |c|]
      && (forall k :: Lead(s, GithubChars()) + |c| <= k < |s| ==> s[k] in Remote.GithubPrefix)
      && (c != [] ==> c[0] !in Remote.GithubPrefix && c[|c| - 1] !in Remote.GithubPrefix)
  {
    var cs := GithubChars();
    var n := Lead(s, cs);
    assert forall k :: 0 <= k < |Remote.GithubPrefix| ==> s[k] in cs by {
      forall k | 0 <= k < |Remote.GithubPrefix|
        ensures s[k] in cs
      {
        assert s[k] == Remote.GithubPrefix[k];
      }
    }
  }

  /** So `git@github.com:user/repo.git` is listed as `ser/rep`, not `user/repo.git`. */
  lemma CellGithubExample(s: string, since: string -> string)
    requires s == "git@github.com:user/repo.git"
    ensures Cell(map["remote" := JStr(s)], "remote", since) == Some("ser/rep")
  {
    assert Cell(map["remote" := JStr(s)], "remote", since) == Some(Strip(s, GithubChars())) by {
      assert Remote.GithubPrefix <= s;
      assert !EndsWith("remote", "_at");
    }
    StripExample(s);
  }

  lemma StripExample(s: string)
    requires s == "git@github.com:user/repo.git"
    ensures Strip(s, GithubChars()) == "ser/rep"
  {
    ExampleLead(s);
    var left := s[16..];
    assert left == "ser/repo.git" by {
      assert |left| == 12;
      assert forall k :: 0 <= k < 12 ==> left[k] == "ser/repo.git"[k];
    }
    ExampleTrail(left);
    assert left[..7] == "ser/rep" by {
      assert forall k :: 0 <= k < 7 ==> left[k] == "ser/rep"[k];
    }
  }

  lemma ExampleLead(s: string)
    requires s == "git@github.com:user/repo.git"
    ensures Lead(s, GithubChars()) == 16
  {
    assert forall k :: 0 <= k < 16 ==> s[k] in Remote.GithubPrefix;
    assert s[16] == 's' && 's' !in Remote.GithubPrefix;
    LeadAtLeast(s, GithubChars(), 16);
  }

  lemma ExampleTrail(left: string)
    requires left == "ser/repo.git"
    ensures Trail(left, GithubChars()) == 5
  {
    assert forall k :: 7 <= k < 12 ==> left[k] in Remote.GithubPrefix;
    assert left[6] == 'p' && 'p' !in Remote.GithubPrefix;
    TrailAtLeast(left, GithubChars(), 5);
  }

  lemma {:induction false} LeadAtLeast(s: string, cs: set<char>, n: nat)
    requires n <= |s|
    requires forall k :: 0 <= k < n ==> s[k] in cs
    requires n < |s| ==> s[n] !in cs
    ensures Lead(s, cs) == n
  {
  }

  lemma {:induction false} TrailAtLeast(s: string, cs: set<char>, n: nat)
    requires n < |s|
    requires forall k :: |s| - n <= k < |s| ==> s[k] in cs
    requires s[|s| - 1 - n] !in cs
    ensures Trail(s, cs) == n
  {
  }

  /** What `print_table` puts on screen: nothing but `No Results`, a table, or an exception. */
  datatype Listing = NoResults | Rendered(header: seq<string>, rows: seq<seq<string>>) | Raises

  /**
   * What `for r in result` walks over: the elements of a list, the keys of an
   * object or the characters of a string. An element is kept as its fields
   * when it is an object and as `None` otherwise, since only an object has
   * `.get`. `None` overall: the value cannot be iterated (`TypeError`).
   */
  function Entries(result: Value): Option<seq<Option<map<string, Value>>>>
  {
    match result
    case JArr(items) => Some(seq(|items|, i requires 0 <= i < |items| =>
                                   if items[i].JObj? then Some(items[i].fields) else None))
    case JObj(m) => Some(seq(|m|, i => None))
    case JStr(s) => Some(seq(|s|, i => None))
    case _ => None
  }

  /** One cell of one entry: an entry that is not an object fails at `r.get`. */
  function EntryCell(entry: Option<map<string, Value>>, field: string, since: string -> string): Option<string>
  {
    if entry.None? then None else Cell(entry.value, field, since)
  }

  /** `print_table(result, columns, fields)`: one row per entry, one cell per field, in order. */
  method PrintTable(result: Value, columns: seq<string>, fields: seq<string>, since: string -> string)
    returns (listing: Listing)
    ensures listing == NoResults <==> !Truthy(result)
    ensures Truthy(result) && Entries(result).None? ==> listing == Raises
    ensures listing.Rendered? ==>
              var es := Entries(result).value;
              && Entries(result).Some?
              && |listing.header| == |columns|
              && (forall j :: 0 <= j < |columns| ==> listing.header[j] == Upper(columns[j]))
              && |listing.rows| == |es|
              && (forall i :: 0 <= i < |es| ==> |listing.rows[i]| == |fields|)
              && (forall i, j :: 0 <= i < |es| && 0 <= j < |fields| ==>
                    EntryCell(es[i], fields[j], since) == Some(listing.rows[i][j]))
    ensures listing == Raises <==>
              Truthy(result)
              && (Entries(result).None?
                  || exists i, j :: 0 <= i < |Entries(result).value| && 0 <= j < |fields|
                                   && EntryCell(Entries(result).value[i], fields[j], since).None?)
  {
    if !Truthy(result) {
      return NoResults;
    }
    var entries := Entries(result);
    if entries.None? {
      return Raises;
    }
    var es := entries.value;
    var header := seq(|columns|, j requires 0 <= j < |columns| => Upper(columns[j]));
    var rows: seq<seq<string>> := [];
    var i := 0;
    while i < |es|
      invariant 0 <= i <= |es|
      invariant |rows| == i
      invariant forall r :: 0 <= r < i ==> |rows[r]| == |fields|
      invariant forall r, j :: 0 <= r < i && 0 <= j < |fields| ==> EntryCell(es[r], fields[j], since) == Some(rows[r][j])
    {
      var row: seq<string> := [];
      var j := 0;
      while j < |fields|
        invariant 0 <= j <= |fields|
        invariant |row| == j
        invariant forall k :: 0 <= k < j ==> EntryCell(es[i], fields[k], since) == Some(row[k])
      {
        var cell := EntryCell(es[i], fields[j], since);
        if cell.None? {
          return Raises;
        }
        row := row + [cell.value];
        j := j + 1;
      }
      rows := rows + [row];
      i := i + 1;
    }
    return Rendered(header, rows);
  }

  /** A non-empty object or string reply walks over keys or characters, which have no `.get`. */
  lemma NonListFails(result: Value, fields: seq<string>, since: string -> string)
    requires (result.JObj? || result.JStr?) && Truthy(result) && fields != []
    ensures Entries(result).Some? && Entries(result).value != []
    ensures forall i :: 0 <= i < |Entries(result).value| ==> EntryCell(Entries(result).value[i], fields[0], since).None?
  {
  }
}
