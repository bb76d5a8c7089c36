/** The `add` command: from zero, one or two positional arguments it decides which
    alias and which path to register, asking the file-service collaborator only
    what that case needs, and then calls the registry's `Add` at most once.

    The file service is an oracle (`FileOracle`): the answers it would give. The
    registry's `Add` is a function from `(alias, path)` to the error it returns.
    Every function here returns, beside its result, the calls it made to either
    collaborator, in order, so that which collaborator is asked what, and which is
    never asked, can be stated. */
module AddCommand {
  import opened Wrappers
  import opened Errors
  import Kv
  import Registry

  /** `CheckIfPathExists`'s answer, Go's `(bool, error)` pair. */
  datatype Probe = Probe(found: bool, err: Option<Error>)

  /** The `FileService` collaborator: what `GetCurrentPath` returns, what
      `GetParentFolderName` returns for each path, and what `CheckIfPathExists`
      returns for each path. */
  datatype FileOracle = FileOracle(
    currentPath: Result<string, Error>,
    parentFolderName: string -> string,
    checkPath: string -> Probe)

  /** One call to a collaborator: the three file-service queries and the
      registry's `Add`. */
  datatype Call =
    | GetCurrentPath
    | GetParentFolderName(path: string)
    | CheckIfPathExists(path: string)
    | DbAdd(alias: string, path: string)

  /** A result together with the collaborator calls made to reach it. */
  datatype Step<T> = Step(result: Result<T, Error>, calls: seq<Call>)

  /** What the command returns (nil or an error) and the calls it made. */
  datatype Outcome = Outcome(err: Option<Error>, calls: seq<Call>)

  const FailedCurrentPath := "failed to get current path"
  const PathDoesNotExist := "path does not exist"
  const InvalidArgCount := "invalid number of arguments"

  /** The message the command returns when the registry's `Add` fails; the
      registry's own error is dropped. */
  function FailedToAdd(path: string, alias: string): string
  {
    "failed to add " + path + " with alias " + alias
  }

  /** The number of registry `Add` calls in a trace. */
  function CountAdds(calls: seq<Call>): nat
    decreases |calls|
  {
    if |calls| == 0 then 0
    else (if calls[0].DbAdd? then 1 else 0) + CountAdds(calls[1..])
  }

  /** Counting `Add` calls distributes over joined traces. */
  lemma {:induction false} CountAddsAppend(a: seq<Call>, b: seq<Call>)
    ensures CountAdds(a + b) == CountAdds(a) + CountAdds(b)
    decreases |a|
  {
    if |a| == 0 {
      assert a + b == b;
    } else {
      assert (a + b)[1..] == a[1..] + b;
      CountAddsAppend(a[1..], b);
    }
  }

  /** A trace with no registry call counts none. */
  lemma {:induction false} NoAddsCountZero(calls: seq<Call>)
    requires forall i :: 0 <= i < |calls| ==> !calls[i].DbAdd?
    ensures CountAdds(calls) == 0
    decreases |calls|
  {
    if |calls| > 0 {
      NoAddsCountZero(calls[1..]);
    }
  }

  /** `getPath`: with zero or one argument the path is the current path, and a
      failure to get it becomes "failed to get current path"; with two it is the
      second argument, accepted only when `CheckIfPathExists` answers `(true, nil)`
      and otherwise refused with "path does not exist"; with more it is refused with
      "invalid number of arguments" without asking anything. */
  function GetPath(args: seq<string>, fs: FileOracle): (r: Step<string>)
    ensures |args| <= 1 ==> r.calls == [GetCurrentPath]
    ensures |args| <= 1 ==> (r.result.Success? <==> fs.currentPath.Success?)
    ensures |args| <= 1 && r.result.Success? ==> r.result.value == fs.currentPath.value
    ensures |args| <= 1 && r.result.Failure? ==> r.result.error == Message(FailedCurrentPath)
    ensures |args| == 2 ==> r.calls == [CheckIfPathExists(args[1])]
    ensures |args| == 2 ==> (r.result.Success? <==> fs.checkPath(args[1]) == Probe(true, None))
    ensures |args| == 2 && r.result.Success? ==> r.result.value == args[1]
    ensures |args| == 2 && r.result.Failure? ==> r.result.error == Message(PathDoesNotExist)
    ensures |args| > 2 ==> r == Step(Failure(Message(InvalidArgCount)), [])
  {
    if |args| == 0 || |args| == 1 then
      match fs.currentPath
      case Success(p) => Step(Success(p), [GetCurrentPath])
      case Failure(_) => Step(Failure(Message(FailedCurrentPath)), [GetCurrentPath])
    else if |args| == 2 then
      var probe := fs.checkPath(args[1]);
      if probe.err.Some? || !probe.found then
        Step(Failure(Message(PathDoesNotExist)), [CheckIfPathExists(args[1])])
      else
        Step(Success(args[1]), [CheckIfPathExists(args[1])])
    else
      Step(Failure(Message(InvalidArgCount)), [])
  }

  /** `getAlias`: with no argument the alias is the parent-folder name of the path
      already resolved; with one or two it is the first argument, asked of nobody;
      with more it is refused with "invalid number of arguments". */
  function GetAlias(args: seq<string>, fs: FileOracle, currentPath: string): (r: Step<string>)
    ensures |args| == 0 ==> r.calls == [GetParentFolderName(currentPath)]
    ensures |args| == 0 ==> r.result == Success(fs.parentFolderName(currentPath))
    ensures 1 <= |args| <= 2 ==> r == Step(Success(args[0]), [])
    ensures |args| > 2 ==> r == Step(Failure(Message(InvalidArgCount)), [])
  {
    if |args| == 0 then
      Step(Success(fs.parentFolderName(currentPath)), [GetParentFolderName(currentPath)])
    else if |args| == 1 || |args| == 2 then
      Step(Success(args[0]), [])
    else
      Step(Failure(Message(InvalidArgCount)), [])
  }

  /** `determineAliasAndPath`: the path first, then the alias from it; the first
      error stops the resolution and is returned as it is. */
  function DetermineAliasAndPath(args: seq<string>, fs: FileOracle): (r: Step<(string, string)>)
    ensures r.result.Success? ==> GetPath(args, fs).result == Success(r.result.value.1)
    ensures r.result.Success? ==> GetAlias(args, fs, r.result.value.1).result == Success(r.result.value.0)
    ensures r.result.Success? ==> r.calls == GetPath(args, fs).calls + GetAlias(args, fs, r.result.value.1).calls
    ensures r.result.Failure? ==> GetPath(args, fs).result.Failure? || GetAlias(args, fs, GetPath(args, fs).result.value).result.Failure?
    ensures GetPath(args, fs).result.Failure? ==> r == Step(Failure(GetPath(args, fs).result.error), GetPath(args, fs).calls)
  {
    var path := GetPath(args, fs);
    match path.result
    case Failure(e) => Step(Failure(e), path.calls)
    case Success(p) =>
      var alias := GetAlias(args, fs, p);
      match alias.result
      case Failure(e) => Step(Failure(e), path.calls + alias.calls)
      case Success(a) => Step(Success((a, p)), path.calls + alias.calls)
  }

  /** The `RunE` body of the `add` command: resolve, then call the registry's `Add`
      with the resolved pair. A resolution error is returned as it is and `Add` is
      not called; a failed `Add` becomes "failed to add <path> with alias <alias>". */
  function RunE(args: seq<string>, fs: FileOracle, dbAdd: (string, string) -> Option<Error>): (r: Outcome)
    ensures DetermineAliasAndPath(args, fs).result.Failure? ==>
            r == Outcome(Some(DetermineAliasAndPath(args, fs).result.error), DetermineAliasAndPath(args, fs).calls)
    ensures DetermineAliasAndPath(args, fs).result.Success? ==>
            var (a, p) := DetermineAliasAndPath(args, fs).result.value;
            r.calls == DetermineAliasAndPath(args, fs).calls + [DbAdd(a, p)]
            && (r.err.None? <==> dbAdd(a, p).None?)
            && (r.err.Some? ==> r.err == Some(Message(FailedToAdd(p, a))))
  {
    var resolved := DetermineAliasAndPath(args, fs);
    match resolved.result
    case Failure(e) => Outcome(Some(e), resolved.calls)
    case Success(pair) =>
      var (alias, path) := pair;
      var calls := resolved.calls + [DbAdd(alias, path)];
      if dbAdd(alias, path).Some? then Outcome(Some(Message(FailedToAdd(path, alias))), calls)
      else Outcome(None, calls)
  }

  /** Running the command through the framework: `RangeArgs(0, 2)` turns away more
      than two arguments before `RunE` runs; otherwise `RunE` decides. `args` are the
      positional arguments left once the framework has parsed flags; a flag it handles
      itself, such as `--help`, never reaches this point. */
  function Execute(args: seq<string>, fs: FileOracle, dbAdd: (string, string) -> Option<Error>): (r: Outcome)
    ensures |args| > 2 ==> r == Outcome(Some(ArgCount(0, 2, |args|)), [])
    ensures |args| <= 2 ==> r == RunE(args, fs, dbAdd)
  {
    if |args| > 2 then Outcome(Some(ArgCount(0, 2, |args|)), [])
    else RunE(args, fs, dbAdd)
  }

  /** The argument-count decision table, stated as a relation: which `(alias, path)`
      each number of arguments resolves to. It is the table the code implements, not
      the help text, which also asks for a Git repository and names the folder itself
      rather than its parent; neither condition is checked anywhere. */
  ghost predicate Resolves(args: seq<string>, fs: FileOracle, alias: string, path: string)
  {
    || (|args| == 0 && fs.currentPath == Success(path) && alias == fs.parentFolderName(path))
    || (|args| == 1 && fs.currentPath == Success(path) && alias == args[0])
    || (|args| == 2 && fs.checkPath(args[1]) == Probe(true, None) && alias == args[0] && path == args[1])
  }

  /** Resolution yields `(alias, path)` exactly when the decision table's row for
      that number of arguments says so; when it fails, the number of arguments alone
      decides the message. */
  lemma ResolutionFollowsScenarios(args: seq<string>, fs: FileOracle, alias: string, path: string)
    ensures DetermineAliasAndPath(args, fs).result == Success((alias, path)) <==> Resolves(args, fs, alias, path)
    ensures DetermineAliasAndPath(args, fs).result.Failure? ==>
            DetermineAliasAndPath(args, fs).result.error ==
            Message(if |args| <= 1 then FailedCurrentPath else if |args| == 2 then PathDoesNotExist else InvalidArgCount)
  {
  }

  /** Which collaborator resolution asks, in which order: zero arguments ask for the
      current path and then for the parent-folder name of exactly that path (only
      when the first answer was a path); one argument asks for the current path
      only; two arguments ask only whether the given path exists; more ask nothing. */
  lemma ResolutionCalls(args: seq<string>, fs: FileOracle)
    ensures |args| == 0 && fs.currentPath.Success? ==>
            DetermineAliasAndPath(args, fs).calls == [GetCurrentPath, GetParentFolderName(fs.currentPath.value)]
    ensures |args| == 0 && fs.currentPath.Failure? ==> DetermineAliasAndPath(args, fs).calls == [GetCurrentPath]
    ensures |args| == 1 ==> DetermineAliasAndPath(args, fs).calls == [GetCurrentPath]
    ensures |args| == 2 ==> DetermineAliasAndPath(args, fs).calls == [CheckIfPathExists(args[1])]
    ensures |args| > 2 ==> DetermineAliasAndPath(args, fs).calls == []
  {
  }

  /** Resolution never calls the registry. */
  lemma ResolutionNeverAdds(args: seq<string>, fs: FileOracle)
    ensures CountAdds(DetermineAliasAndPath(args, fs).calls) == 0
  {
    ResolutionCalls(args, fs);
    NoAddsCountZero(DetermineAliasAndPath(args, fs).calls);
  }

  /** The command calls the registry's `Add` exactly once when resolution succeeds,
      as its last call and with the resolved pair, and never when it fails; it
      returns nil exactly when resolution and `Add` both succeed. */
  lemma AddCalledOnceIffResolved(args: seq<string>, fs: FileOracle, dbAdd: (string, string) -> Option<Error>)
    ensures var r := RunE(args, fs, dbAdd);
            CountAdds(r.calls) == (if DetermineAliasAndPath(args, fs).result.Success? then 1 else 0)
    ensures var r := RunE(args, fs, dbAdd);
            DetermineAliasAndPath(args, fs).result.Success? ==>
            |r.calls| > 0 && r.calls[|r.calls| - 1] == DbAdd(DetermineAliasAndPath(args, fs).result.value.0, DetermineAliasAndPath(args, fs).result.value.1)
    ensures var r := RunE(args, fs, dbAdd);
            r.err.None? <==> exists a, p :: Resolves(args, fs, a, p) && dbAdd(a, p).None?
  {
    var resolved := DetermineAliasAndPath(args, fs);
    ResolutionNeverAdds(args, fs);
    if resolved.result.Success? {
      var (a, p) := resolved.result.value;
      CountAddsAppend(resolved.calls, [DbAdd(a, p)]);
      assert CountAdds([DbAdd(a, p)]) == 1;
      ResolutionFollowsScenarios(args, fs, a, p);
      forall a', p' | Resolves(args, fs, a', p')
        ensures a' == a && p' == p
      {
        ResolutionFollowsScenarios(args, fs, a', p');
      }
    } else {
      forall a', p' | Resolves(args, fs, a', p')
        ensures false
      {
        ResolutionFollowsScenarios(args, fs, a', p');
      }
    }
  }

  /** More than two arguments: the framework turns them away first, and `RunE` on
      its own would still refuse them with "invalid number of arguments", in both
      cases without calling any collaborator. */
  lemma TooManyArgumentsAskNothing(args: seq<string>, fs: FileOracle, dbAdd: (string, string) -> Option<Error>)
    requires |args| > 2
    ensures Execute(args, fs, dbAdd) == Outcome(Some(ArgCount(0, 2, |args|)), [])
    ensures RunE(args, fs, dbAdd) == Outcome(Some(Message(InvalidArgCount)), [])
  {
  }

  /** End to end over the registry: when the command's `Add` is the registry's `Add`
      on store `s`, the command succeeds exactly when the registry's `Add` of the
      resolved pair does, and afterwards `Get(alias)` reads the resolved path. */
  lemma CommandRegistersResolvedPair(args: seq<string>, fs: FileOracle, svc: Registry.Service, s: Kv.Store, f: Kv.Faults, alias: string, path: string)
    requires Resolves(args, fs, alias, path)
    ensures var dbAdd := (a: string, p: string) => Registry.Add(svc, s, a, p, f).err;
            RunE(args, fs, dbAdd).err.None? <==> Registry.Add(svc, s, alias, path, f).err.None?
    ensures var dbAdd := (a: string, p: string) => Registry.Add(svc, s, a, p, f).err;
            RunE(args, fs, dbAdd).err.None? ==>
            Registry.Get(svc, Registry.Add(svc, s, alias, path, f).after, alias, None) == Registry.Read(path, None)
  {
  }
}
