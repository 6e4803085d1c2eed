/** The pipeline host as this layer sees it: the script context (`CpsScript`)
    through which every named step is invoked, and the collaborators outside
    this layer that it calls. What a step does is not modelled; each
    invocation is recorded in a log and yields an opaque object. */
module Host {
  import opened LinkedMaps

  /** One observable call into the host: a named step invoked with its
      ordered arguments, or the build-info linkage appended to a step map. */
  datatype Event =
    | Invoked(step: string, args: Entries)
    | BuildInfoAppended(args: Entries)

  /** The object a step hands back (an `ArtifactoryServer`, `BuildInfo`,
      `MavenBuild` or `GradleBuild`); all this layer does with it is attach
      the script context. */
  class HostObject {
    var cpsScript: CpsScript?

    constructor ()
      ensures cpsScript == null
    {
      cpsScript := null;
    }

    method SetCpsScript(script: CpsScript)
      modifies this
      ensures cpsScript == script
    {
      cpsScript := script;
    }
  }

  class CpsScript {
    /** Every host call made so far, oldest first. */
    ghost var log: seq<Event>

    /** `Utils.appendBuildInfo(cpsScript, stepVariables)`: how the step map of
        a command is rewritten to carry build-info linkage. */
    const appendBuildInfo: Entries -> Entries

    /** `Utils.createPromotionConfig(config, interactive)`: the canonical
        promotion configuration built from a raw one. */
    const createPromotionConfig: (Value, bool) -> Value

    constructor (appendBuildInfo: Entries -> Entries, createPromotionConfig: (Value, bool) -> Value)
      ensures log == []
      ensures this.appendBuildInfo == appendBuildInfo
      ensures this.createPromotionConfig == createPromotionConfig
    {
      log := [];
      this.appendBuildInfo := appendBuildInfo;
      this.createPromotionConfig := createPromotionConfig;
    }

    /** `cpsScript.invokeMethod(step, args)`. */
    method InvokeMethod(step: string, args: Entries) returns (result: HostObject)
      modifies this
      ensures log == old(log) + [Invoked(step, args)]
      ensures fresh(result) && result.cpsScript == null
    {
      log := log + [Invoked(step, args)];
      result := new HostObject();
    }

    /** `appendBuildInfo(cpsScript, stepVariables)`: updates the map in place. */
    method AppendBuildInfo(stepVariables: LinkedMap)
      modifies this, stepVariables
      ensures log == old(log) + [BuildInfoAppended(old(stepVariables.entries))]
      ensures stepVariables.entries == appendBuildInfo(old(stepVariables.entries))
    {
      log := log + [BuildInfoAppended(stepVariables.entries)];
      stepVariables.entries := appendBuildInfo(stepVariables.entries);
    }
  }
}
