/** Finding the program of a command tool: a path is taken as it is, a bare name is searched for in PATH. What
    the file system calls executable, and its canonical form of a path, are parameters. */
module PathSearch {
  import opened Wrappers

  datatype Tool = Tool(command: seq<string>, workingDirectory: Option<string>, inheritEnvironment: bool,
                       env: map<string, string>)

  /** What the process provides: its PATH variable and current directory, and the file system. */
  datatype Host = Host(path: Option<string>, currentDirectory: string,
                       executable: string -> bool, canonical: string -> string)

  const PATH := "PATH"

  // ---------- paths ----------

  predicate IsAbsolute(path: string) {
    path != "" && path[0] == '/'
  }

  /** The `/` of the path library: an absolute right side stands alone. */
  function Join(left: string, right: string): string {
    if IsAbsolute(right) then right
    else if left == "" || left[|left| - 1] == '/' then left + right
    else left + "/" + right
  }

  /** `path` is `right` if that is absolute; else it begins with `left` and ends with `right`, with one slash
      between them unless there is nothing on the left or that ends in a slash already. */
  predicate IsJoined(left: string, right: string, path: string) {
    if right != "" && right[0] == '/' then path == right
    else
      var gap := if left == "" || left[|left| - 1] == '/' then 0 else 1;
      && |path| == |left| + gap + |right|
      && left <= path && path[|left| + gap..] == right
      && (gap == 1 ==> path[|left|] == '/')
  }

  /** Joining gives that path, and there is no other. */
  lemma JoinedExactly(left: string, right: string, path: string)
    ensures IsJoined(left, right, path) <==> path == Join(left, right)
  {
    if IsJoined(left, right, path) && !IsAbsolute(right) {
      var gap := if left == "" || left[|left| - 1] == '/' then 0 else 1;
      assert path == path[..|left|] + path[|left|..|left| + gap] + path[|left| + gap..];
    }
  }

  function BaseDirectory(tool: Tool, host: Host): string {
    match tool.workingDirectory
    case Some(directory) => directory
    case None => host.currentDirectory
  }

  function NonEmpty(path: Option<string>): Option<string> {
    if path == Some("") then None else path
  }

  /** effective_path_env: the inherited PATH, else the tool's own, else the process's. */
  function EffectivePath(tool: Tool, host: Host): Option<string> {
    if tool.inheritEnvironment && NonEmpty(host.path).Some? then host.path
    else if PATH in tool.env then Some(tool.env[PATH])
    else NonEmpty(host.path)
  }

  /** A tool's working directory is its base; without one the process's directory is. */
  lemma BaseOfTool(tool: Tool, host: Host)
    ensures tool.workingDirectory == Some(BaseDirectory(tool, host))
            || (tool.workingDirectory.None? && BaseDirectory(tool, host) == host.currentDirectory)
  {
  }

  /** Which PATH is searched: that of the process counts only if it is not empty; if it counts, it comes before
      the tool's for a tool that inherits the environment and behind it for others; there is none exactly if
      neither is given. A tool's own PATH counts even if it is empty. */
  lemma PathOfTool(tool: Tool, host: Host)
    ensures var given, own := host.path.Some? && host.path.value != "", "PATH" in tool.env;
      && (EffectivePath(tool, host).None? <==> !given && !own)
      && (given && tool.inheritEnvironment ==> EffectivePath(tool, host) == host.path)
      && (own && !(given && tool.inheritEnvironment) ==> EffectivePath(tool, host) == Some(tool.env["PATH"]))
      && (given && !own ==> EffectivePath(tool, host) == host.path)
  {
  }

  // ---------- the entries of PATH ----------

  /** The position of the first colon at or after `start`. */
  function FindColon(s: string, start: nat): (r: Option<nat>)
    requires start <= |s|
    ensures r.None? <==> ':' !in s[start..]
    ensures r.Some? ==> start <= r.value < |s| && s[r.value] == ':' && ':' !in s[start..r.value]
    decreases |s| - start
  {
    if start == |s| then None
    else if s[start] == ':' then Some(start)
    else
      assert s[start..] == [s[start]] + s[start + 1..];
      var r := FindColon(s, start + 1);
      assert r.Some? ==> s[start..r.value] == [s[start]] + s[start + 1..r.value];
      r
  }

  /** The text between colons, empty pieces included. */
  function Split(s: string): (entries: seq<string>)
    ensures entries != []
  {
    match FindColon(s, 0)
    case None => [s]
    case Some(i) => [s[..i]] + Split(s[i + 1..])
  }

  function JoinWithColons(entries: seq<string>): string
    requires entries != []
  {
    if |entries| == 1 then entries[0] else entries[0] + ":" + JoinWithColons(entries[1..])
  }

  /** The entries have no colon and give the text back: the one way to split it. */
  lemma {:induction false} SplitIsExact(s: string)
    ensures forall i | 0 <= i < |Split(s)| :: ':' !in Split(s)[i]
    ensures JoinWithColons(Split(s)) == s
    decreases |s|
  {
    match FindColon(s, 0)
    case None => assert s[0..] == s;
    case Some(k) =>
      var rest := s[k + 1..];
      SplitIsExact(rest);
      assert s[0..k] == s[..k];
      assert Split(s)[1..] == Split(rest);
      assert s == s[..k] + ":" + rest;
      forall i | 0 <= i < |Split(s)| ensures ':' !in Split(s)[i] {
        if i > 0 { assert Split(s)[i] == Split(rest)[i - 1]; }
      }
  }

  lemma SplitFirst(s: string, k: nat)
    requires k < |s| && s[k] == ':' && ':' !in s[..k]
    ensures Split(s) == [s[..k]] + Split(s[k + 1..])
  {
    FirstColon(s, k);
    hide FindColon;
  }

  lemma {:induction false} OnlyOneSplit(entries: seq<string>)
    requires entries != [] && forall i | 0 <= i < |entries| :: ':' !in entries[i]
    ensures Split(JoinWithColons(entries)) == entries
    decreases |entries|
  {
    var s := JoinWithColons(entries);
    if |entries| == 1 {
      assert s[0..] == s;
      assert entries == [s];
    } else {
      hide *;
      OnlyOneSplit(entries[1..]);
      var k, rest := |entries[0]|, JoinWithColons(entries[1..]);
      assert s == entries[0] + ":" + rest by { JoinStep(entries); }
      assert s[k] == ':' && s[k + 1..] == rest && s[..k] == entries[0];
      SplitFirst(s, k);
      assert entries == [entries[0]] + entries[1..];
    }
  }

  lemma JoinStep(entries: seq<string>)
    requires |entries| > 1
    ensures JoinWithColons(entries) == entries[0] + ":" + JoinWithColons(entries[1..])
  {
  }

  lemma FirstColon(s: string, k: nat)
    requires k < |s| && s[k] == ':' && ':' !in s[..k]
    ensures FindColon(s, 0) == Some(k)
  {
    var r := FindColon(s, 0);
    assert s[0..][k] == ':';
    assert forall i | 0 <= i < k :: s[..k][i] == s[i];
    assert forall i | 0 <= i < r.value :: s[0..r.value][i] == s[i];
  }

  // ---------- the search ----------

  function Directory(base: string, entry: string): string {
    var directory := if entry == "" then base else entry;
    if IsAbsolute(directory) then directory else Join(base, directory)
  }

  function Candidate(base: string, program: string, entry: string): string {
    Join(Directory(base, entry), program)
  }

  /** An empty entry stands for the text of the base directory exactly if that is absolute (or empty itself): a
      relative one is joined to itself, so that "tools" becomes "tools/tools". Texts are compared, not what they
      name: "." becomes "./.", which is the same directory. */
  lemma EmptyEntryIsBase(base: string)
    ensures Directory(base, "") == base <==> IsAbsolute(base) || base == ""
  {
    if !IsAbsolute(base) && base != "" {
      assert |Join(base, base)| >= 2 * |base|;
    }
  }

  /** `path` is what the search tries for the program in one entry: the entry, taken from the base if it is
      relative, or the base in place of an empty one; a slash; and the program. */
  ghost predicate IsCandidate(base: string, program: string, entry: string, path: string) {
    exists directory ::
      && IsJoined(base, if entry == "" then base else entry, directory)
      && IsJoined(directory, program, path)
  }

  lemma CandidateExactly(base: string, program: string, entry: string, path: string)
    ensures IsCandidate(base, program, entry, path) <==> path == Candidate(base, program, entry)
  {
    var named := if entry == "" then base else entry;
    JoinedExactly(base, named, Directory(base, entry));
    JoinedExactly(Directory(base, entry), program, Candidate(base, program, entry));
    hide IsJoined;
    if IsCandidate(base, program, entry, path) {
      var directory :| IsJoined(base, named, directory) && IsJoined(directory, program, path);
      JoinedExactly(base, named, directory);
      JoinedExactly(directory, program, path);
    }
  }

  /** In an absolute entry that does not end in a slash, the search tries the entry, a slash and the program,
      whatever the base. */
  lemma CandidateInAbsoluteEntry(base: string, program: string, entry: string)
    requires entry != "" && entry[0] == '/' && entry[|entry| - 1] != '/' && '/' !in program
    ensures Candidate(base, program, entry) == entry + "/" + program
  {
    assert program != "" ==> program[0] in program;
  }

  /** `found` is the canonical form of the first candidate that is executable. */
  ghost predicate IsFirst(host: Host, base: string, program: string, entries: seq<string>, found: Option<string>) {
    match found
    case None => forall i, path | 0 <= i < |entries| && IsCandidate(base, program, entries[i], path) :: !host.executable(path)
    case Some(canonical) =>
      exists k, path ::
        && 0 <= k < |entries| && IsCandidate(base, program, entries[k], path)
        && host.executable(path) && canonical == host.canonical(path)
        && forall i, other | 0 <= i < k && IsCandidate(base, program, entries[i], other) :: !host.executable(other)
  }

  /** The same by the candidate of each entry. */
  ghost predicate IsFirstTried(host: Host, base: string, program: string, entries: seq<string>, found: Option<string>) {
    match found
    case None => forall i | 0 <= i < |entries| :: !host.executable(Candidate(base, program, entries[i]))
    case Some(path) =>
      exists k ::
        && 0 <= k < |entries| && host.executable(Candidate(base, program, entries[k]))
        && path == host.canonical(Candidate(base, program, entries[k]))
        && forall i | 0 <= i < k :: !host.executable(Candidate(base, program, entries[i]))
  }

  lemma FirstTriedIsFirst(host: Host, base: string, program: string, entries: seq<string>, found: Option<string>)
    ensures IsFirst(host, base, program, entries, found) <==> IsFirstTried(host, base, program, entries, found)
  {
    forall i, path | 0 <= i < |entries|
      ensures IsCandidate(base, program, entries[i], path) <==> path == Candidate(base, program, entries[i])
    {
      CandidateExactly(base, program, entries[i], path);
    }
    hide IsCandidate, Candidate;
    assert forall i | 0 <= i < |entries| :: IsCandidate(base, program, entries[i], Candidate(base, program, entries[i]));
  }

  lemma SplitAtNone(path: string, start: nat)
    requires start <= |path| && FindColon(path, start).None?
    ensures Split(path[start..]) == [path[start..]]
  {
    var s := path[start..];
    assert s[0..] == s;
  }

  lemma SplitAtColon(path: string, start: nat, end: nat)
    requires start <= |path| && FindColon(path, start) == Some(end)
    ensures Split(path[start..]) == [path[start..end]] + Split(path[end + 1..])
  {
    hide Split;
    var s := path[start..];
    var k := end - start;
    ColonInSuffix(path, start, end);
    SplitFirst(s, k);
  }

  lemma ColonInSuffix(path: string, start: nat, end: nat)
    requires start <= |path| && FindColon(path, start) == Some(end)
    ensures var s, k := path[start..], end - start;
      && k < |s| && s[k] == ':' && s[..k] == path[start..end] && ':' !in s[..k] && s[k + 1..] == path[end + 1..]
  {
    hide FindColon;
  }

  /** No entry before `entry` qualifies; so the whole search is decided by `entry` and what follows it. */
  lemma FoundAt(host: Host, base: string, program: string, done: seq<string>, entry: string, rest: seq<string>)
    requires forall i | 0 <= i < |done| :: !host.executable(Candidate(base, program, done[i]))
    requires host.executable(Candidate(base, program, entry))
    ensures IsFirstTried(host, base, program, done + ([entry] + rest), Some(host.canonical(Candidate(base, program, entry))))
  {
    var entries := done + ([entry] + rest);
    assert entries[|done|] == entry && forall i | 0 <= i < |done| :: entries[i] == done[i];
  }

  /** The candidate of one entry. */
  method MakeCandidate(base: string, program: string, entry: string) returns (candidate: string)
    ensures candidate == Candidate(base, program, entry)
  {
    hide Join, IsAbsolute;
    var directory := if entry == "" then base else entry;
    if !IsAbsolute(directory) {
      directory := Join(base, directory);
    }
    candidate := Join(directory, program);
  }

  /** The loop over PATH. */
  method SearchPath(path: string, base: string, program: string, host: Host) returns (found: Option<string>)
    ensures IsFirst(host, base, program, Split(path), found)
  {
    hide Split, Candidate, IsFirst, IsCandidate;
    var start: nat := 0;
    ghost var done: seq<string> := [];
    assert path[0..] == path;
    while start <= |path|
      invariant start <= |path|
      invariant Split(path) == done + Split(path[start..])
      invariant forall i | 0 <= i < |done| :: !host.executable(Candidate(base, program, done[i]))
      decreases |path| - start
    {
      var end := FindColon(path, start);
      var entry := if end.None? then path[start..] else path[start..end.value];
      ghost var rest := if end.None? then [] else Split(path[end.value + 1..]);
      assert Split(path[start..]) == [entry] + rest by {
        if end.None? { SplitAtNone(path, start); } else { SplitAtColon(path, start, end.value); }
      }
      var candidate := MakeCandidate(base, program, entry);
      if host.executable(candidate) {
        found := Some(host.canonical(candidate));
        FoundAt(host, base, program, done, entry, rest);
        FirstTriedIsFirst(host, base, program, Split(path), found);
        return;
      }
      ghost var before := done;
      done := done + [entry];
      assert before + ([entry] + rest) == done + rest;
      if end.None? {
        break;
      }
      start := end.value + 1;
    }
    found := None;
    FirstTriedIsFirst(host, base, program, Split(path), found);
  }

  /** A PATH of absolute directories: the program is found in the first of them where it is executable, in the
      canonical form of "directory/program", and not found if and only if there is none. */
  lemma SearchOfDirectories(host: Host, base: string, program: string, directories: seq<string>, found: Option<string>)
    requires directories != [] && '/' !in program
    requires forall i | 0 <= i < |directories| ::
      var d := directories[i]; d != "" && d[0] == '/' && d[|d| - 1] != '/' && ':' !in d
    requires IsFirst(host, base, program, Split(JoinWithColons(directories)), found)
    ensures found.None? <==> forall i | 0 <= i < |directories| :: !host.executable(directories[i] + "/" + program)
    ensures found.Some? ==>
      exists k ::
        && 0 <= k < |directories| && host.executable(directories[k] + "/" + program)
        && found == Some(host.canonical(directories[k] + "/" + program))
        && forall i | 0 <= i < k :: !host.executable(directories[i] + "/" + program)
  {
    hide Split, JoinWithColons, Candidate, IsFirst, IsCandidate, IsJoined;
    OnlyOneSplit(directories);
    FirstTriedIsFirst(host, base, program, directories, found);
    forall i | 0 <= i < |directories|
      ensures Candidate(base, program, directories[i]) == directories[i] + "/" + program
    {
      CandidateInAbsoluteEntry(base, program, directories[i]);
    }
  }

  /** resolve_executable_path. */
  method ResolveExecutablePath(tool: Tool, host: Host) returns (found: Option<string>)
    ensures tool.command == [] || tool.command[0] == "" ==> found == None
    ensures tool.command != [] && '/' in tool.command[0] ==>
      forall candidate | IsJoined(BaseDirectory(tool, host), tool.command[0], candidate) ::
        found == if host.executable(candidate) then Some(host.canonical(candidate)) else None
    ensures tool.command != [] && tool.command[0] != "" && '/' !in tool.command[0] ==>
      match EffectivePath(tool, host)
      case None => found == None
      case Some(path) => IsFirst(host, BaseDirectory(tool, host), tool.command[0], Split(path), found)
  {
    if tool.command == [] || tool.command[0] == "" {
      return None;
    }
    var program := tool.command[0];
    if '/' in program {
      forall path ensures IsJoined(BaseDirectory(tool, host), program, path) <==> path == Join(BaseDirectory(tool, host), program) {
        JoinedExactly(BaseDirectory(tool, host), program, path);
      }
      hide IsJoined;
      var candidate := program;
      if !IsAbsolute(candidate) {
        candidate := Join(BaseDirectory(tool, host), candidate);
      }
      if host.executable(candidate) {
        return Some(host.canonical(candidate));
      }
      return None;
    }
    var path := EffectivePath(tool, host);
    if path.None? {
      return None;
    }
    found := SearchPath(path.value, BaseDirectory(tool, host), program, host);
  }
}
