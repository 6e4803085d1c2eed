/** The Conan client a pipeline obtains from the facade: it holds the Conan
    user home, the remote configuration it owns and the script context, and
    runs Conan commands through the host. */
module Conan {
  import opened LinkedMaps
  import opened Host
  import opened Validation

  /** `File.separator`, fixed to one character. */
  const SEPARATOR: char := '/'
  const CONAN_LOG_FILE: string := "conan_log.log"
  const COMMAND_MESSAGE := "'command' is a mandatory argument."

  predicate EndsWithSeparator(path: string)
  {
    |path| > 0 && path[|path| - 1] == SEPARATOR
  }

  /** The build log under the user home: the file name is joined to the path
      with a separator, and none is added when the path already ends with one. */
  function LogFilePath(userPath: string): string
  {
    if EndsWithSeparator(userPath) then userPath + CONAN_LOG_FILE
    else userPath + [SEPARATOR] + CONAN_LOG_FILE
  }

  /** The log path extends the user home by exactly one separator when the
      home lacks a trailing one and by none otherwise, then the file name. */
  lemma LogFilePathExtendsHome(userPath: string)
    ensures userPath <= LogFilePath(userPath)
    ensures |LogFilePath(userPath)| == |userPath| + (if EndsWithSeparator(userPath) then 0 else 1) + |CONAN_LOG_FILE|
    ensures LogFilePath(userPath)[|LogFilePath(userPath)| - |CONAN_LOG_FILE| - 1..] == [SEPARATOR] + CONAN_LOG_FILE
  {
    if EndsWithSeparator(userPath) {
      assert userPath == userPath[..|userPath| - 1] + [SEPARATOR];
    }
  }

  /** The directory a path names, without its trailing separator. */
  function Directory(path: string): string
  {
    if EndsWithSeparator(path) then path[..|path| - 1] else path
  }

  /** The log path is the directory, exactly one separator and the file name. */
  lemma LogFilePathJoinsDirectory(userPath: string)
    ensures LogFilePath(userPath) == Directory(userPath) + [SEPARATOR] + CONAN_LOG_FILE
  {
    if EndsWithSeparator(userPath) {
      assert userPath == userPath[..|userPath| - 1] + [SEPARATOR];
    }
  }

  /** A user home given with or without its trailing separator yields the
      same log path. */
  lemma LogFilePathIgnoresTrailingSeparator(userPath: string)
    ensures LogFilePath(userPath + [SEPARATOR]) == LogFilePath(userPath)
      <==> !EndsWithSeparator(userPath)
  {
    var p := userPath + [SEPARATOR];
    assert EndsWithSeparator(p);
    if EndsWithSeparator(userPath) {
      LogFilePathExtendsHome(p);
      LogFilePathExtendsHome(userPath);
      assert |LogFilePath(p)| != |LogFilePath(userPath)|;
    } else {
      assert LogFilePath(p) == userPath + [SEPARATOR] + CONAN_LOG_FILE;
    }
  }

  /** The step map of `runConanCommand`, in this key order: the command, the
      Conan home, the build log path under it and the build-info (possibly
      null). */
  function RunCommandArguments(command: Value, conanHome: string, buildInfo: Value): Entries
  {
    [("command", command), ("conanHome", Str(conanHome)),
     ("buildLogPath", Str(LogFilePath(conanHome))), ("buildInfo", buildInfo)]
  }

  /** Putting the four keys one after another into a new map yields
      `RunCommandArguments`: none of them overwrites another. */
  lemma PutsMakeRunCommandArguments(command: Value, conanHome: string, buildInfo: Value)
    ensures PutEntry(PutEntry(PutEntry(PutEntry([], "command", command), "conanHome", Str(conanHome)),
                              "buildLogPath", Str(LogFilePath(conanHome))), "buildInfo", buildInfo)
            == RunCommandArguments(command, conanHome, buildInfo)
  {
    var kvs := RunCommandArguments(command, conanHome, buildInfo);
    assert PutEntry([], "command", command) == kvs[..1];
    assert PutEntry(kvs[..1], "conanHome", Str(conanHome)) == kvs[..2];
    assert PutEntry(kvs[..2], "buildLogPath", Str(LogFilePath(conanHome))) == kvs[..3];
  }

  /** The remote configuration a client owns. */
  class ConanRemote {
    var cpsScript: CpsScript?
    var conanHome: Option<string>

    constructor ()
      ensures cpsScript == null && conanHome == None
    {
      cpsScript := null;
      conanHome := None;
    }

    method SetCpsScript(script: CpsScript?)
      modifies this
      ensures cpsScript == script && conanHome == old(conanHome)
    {
      cpsScript := script;
    }

    method SetConanHome(home: Option<string>)
      modifies this
      ensures conanHome == home && cpsScript == old(cpsScript)
    {
      conanHome := home;
    }
  }

  class ConanClient {
    var cpsScript: CpsScript?
    var userPath: Option<string>
    var remote: ConanRemote

    /** The owned remote holds the same Conan home as the client. */
    ghost predicate HomeInSync()
      reads this, remote
    {
      remote.conanHome == userPath
    }

    constructor ()
      ensures cpsScript == null && userPath == None
      ensures fresh(remote) && remote.cpsScript == null && remote.conanHome == None
      ensures HomeInSync()
    {
      cpsScript := null;
      userPath := None;
      remote := new ConanRemote();
    }

    /** Attaches the script context to the client and to its remote. */
    method SetCpsScript(script: CpsScript?)
      modifies this, remote
      ensures cpsScript == script && remote == old(remote) && remote.cpsScript == script
      ensures userPath == old(userPath) && remote.conanHome == old(remote.conanHome)
    {
      cpsScript := script;
      remote.SetCpsScript(script);
    }

    method GetUserPath() returns (path: Option<string>)
      ensures path == userPath
    {
      path := userPath;
    }

    /** Sets the user home and gives the remote the same Conan home. */
    method SetUserPath(conanHomePath: Option<string>)
      modifies this, remote
      ensures userPath == conanHomePath && remote == old(remote) && remote.conanHome == conanHomePath
      ensures HomeInSync()
      ensures cpsScript == old(cpsScript) && remote.cpsScript == old(remote.cpsScript)
    {
      userPath := conanHomePath;
      remote.SetConanHome(conanHomePath);
    }

    /** Computed from the current user home on every call. */
    method GetLogFilePath() returns (path: string)
      requires userPath.Some?
      ensures path == LogFilePath(userPath.value)
    {
      var home := GetUserPath();
      if EndsWithSeparator(home.value) {
        path := home.value + CONAN_LOG_FILE;
      } else {
        path := home.value + [SEPARATOR] + CONAN_LOG_FILE;
      }
    }

    method GetRemote() returns (r: ConanRemote)
      ensures r == remote
    {
      r := remote;
    }

    /** Replaces the remote; the new remote's Conan home is left as it was. */
    method SetRemote(r: ConanRemote)
      modifies this
      ensures remote == r && r.conanHome == old(r.conanHome)
      ensures userPath == old(userPath) && cpsScript == old(cpsScript)
    {
      remote := r;
    }

    /** Runs a Conan command: `command` must be a key of `args` (its value
        may be null). The step map is built, the build-info linkage is
        appended to it, and the `runConanCommand` step is the last thing done. */
    method Run(args: LinkedMap) returns (res: Result<()>)
      requires "command" in KeySet(args.entries) ==> cpsScript != null && userPath.Some?
      modifies cpsScript
      ensures "command" !in KeySet(args.entries) ==>
        && res == IllegalArgument(COMMAND_MESSAGE)
        && (cpsScript != null ==> cpsScript.log == old(cpsScript.log))
      ensures "command" in KeySet(args.entries) ==>
        var stepVariables := RunCommandArguments(Lookup(args.entries, "command"), userPath.value,
                                                 Lookup(args.entries, "buildInfo"));
        && res == Ok(())
        && cpsScript.log == old(cpsScript.log) + [BuildInfoAppended(stepVariables),
                                                  Invoked("runConanCommand", cpsScript.appendBuildInfo(stepVariables))]
    {
      var hasCommand := args.ContainsKey("command");
      if !hasCommand {
        return IllegalArgument(COMMAND_MESSAGE);
      }
      var command := args.Get("command");
      var buildInfo := args.Get("buildInfo");
      var stepVariables := GetRunCommandExecutionArguments(command, buildInfo);
      cpsScript.AppendBuildInfo(stepVariables);
      var _ := cpsScript.InvokeMethod("runConanCommand", stepVariables.entries);
      res := Ok(());
    }

    /** A new map holding the step arguments of `runConanCommand`. */
    method GetRunCommandExecutionArguments(command: Value, buildInfo: Value) returns (stepVariables: LinkedMap)
      requires userPath.Some?
      ensures fresh(stepVariables)
      ensures stepVariables.entries == RunCommandArguments(command, userPath.value, buildInfo)
    {
      stepVariables := new LinkedMap();
      stepVariables.Put("command", command);
      var home := GetUserPath();
      stepVariables.Put("conanHome", Str(home.value));
      var logFilePath := GetLogFilePath();
      stepVariables.Put("buildLogPath", Str(logFilePath));
      stepVariables.Put("buildInfo", buildInfo);
      PutsMakeRunCommandArguments(command, userPath.value, buildInfo);
    }
  }
}
