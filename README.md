# Artifactory pipeline DSL: argument handling

This project models the argument-handling layer of the Jenkins Artifactory
plugin's pipeline DSL. It covers two classes:

- `ArtifactoryPipelineGlobal`, the `Artifactory` object a pipeline script
  calls. It checks argument bags and builds ordered step maps. It invokes
  named host steps and attaches the script context to the objects it hands
  out.
- `ConanClient`, the Conan client object. It keeps a user home in sync with
  the remote it owns, derives the build log path, and runs Conan commands
  through the host.

The host is modelled by `Host.CpsScript`:

- Every `invokeMethod(step, map)` appends `Invoked(step, map)` to a ghost log
  and returns a fresh, opaque `HostObject`.
- `Utils.appendBuildInfo` appends `BuildInfoAppended(map)` to the log and
  rewrites the map in place with a fixed but arbitrary function.
- `Utils.createPromotionConfig` is another fixed but arbitrary function.

So every property about what the layer does is a statement about that log.
If a check fails, nothing is logged. On success, each operation that calls
a step logs exactly one `Invoked` entry, whose step map has the stated keys
in the stated order. `run` logs the build-info append just before that
entry, and `docker(Map)` and `mavenDescriptor` call no step and log nothing.

Java's `LinkedHashMap` is modelled as a sequence of key/value pairs
(`LinkedMaps`). `put` of a new key appends it. `put` of a present key
replaces its value in place. `get` of an absent key yields `Null`.
An `IllegalArgumentException` is the `IllegalArgument(message)` case of
`Validation.Result`, carrying the exception's exact message.
A Java `String` that may be `null` is an `Option<string>`, and it is put
into a map as `Null` or as the string.

Modules:

- `LinkedMaps`: ordered maps, with their `put`/`get`/`remove` laws.
  `LinkedMap` is the mutable map object used for caller bags and for the
  Conan step map.
- `Host`: the script context, its log, and the objects steps return.
- `Validation`: the allow-list, mandatory-key and blank checks, and the
  exception messages.
- `Conan`: `ConanRemote`, `ConanClient` and the log-path function.
- `PipelineGlobal`: `Docker`, `MavenDescriptor` and the facade class.

## Model

| member | source | states |
|---|---|---|
| LinkedMaps.Lookup | src/main/java/org/jfrog/hudson/pipeline/dsl/ArtifactoryPipelineGlobal.java:119 | `get` of an absent key yields `Null`, as Java's `get` yields `null` |
| LinkedMaps.LookupFindsEntry | src/main/java/org/jfrog/hudson/pipeline/dsl/ArtifactoryPipelineGlobal.java:159-161 | `get` of a present key yields a value stored in the map under that key |
| LinkedMaps.PutEntry | src/main/java/org/jfrog/hudson/pipeline/dsl/ArtifactoryPipelineGlobal.java:74-77 | after `put(k, v)` the key set is the old one plus `k`, and keys stay distinct |
| LinkedMaps.LookupAfterPut | src/main/java/org/jfrog/hudson/pipeline/dsl/ArtifactoryPipelineGlobal.java:74-77 | after `put(k, v)`, `get(k)` is `v` and every other key yields what it did before |
| LinkedMaps.KeysAfterPut | src/main/java/org/jfrog/hudson/pipeline/dsl/ArtifactoryPipelineGlobal.java:74-77 | `put` of a present key keeps the key order; `put` of a new key lists it last |
| LinkedMaps.PutAllFreshKeysInOrder | src/main/java/org/jfrog/hudson/pipeline/types/ConanClient.java:68-75 | successive `put`s of pairwise new keys give exactly those entries, in the order they were put |
| LinkedMaps.RemoveEntry | src/main/java/org/jfrog/hudson/pipeline/dsl/ArtifactoryPipelineGlobal.java:61 | `remove(k)` of an absent key changes nothing; otherwise the key set loses exactly `k` and stays distinct |
| LinkedMaps.LookupAfterRemove | src/main/java/org/jfrog/hudson/pipeline/dsl/ArtifactoryPipelineGlobal.java:61 | after `remove(k)`, `get(k)` is `Null` and every other key yields what it did before |
| LinkedMaps.RemoveEntrySplices | src/main/java/org/jfrog/hudson/pipeline/dsl/ArtifactoryPipelineGlobal.java:61 | `remove` cuts exactly the entry under the key out, and the other entries keep their order |
| LinkedMaps.RemoveThenPutBack | src/main/java/org/jfrog/hudson/pipeline/dsl/ArtifactoryPipelineGlobal.java:61-68 | taking the `server` value out of the bag and putting it back restores the same keys and values: the split into properties and server loses nothing |
| LinkedMaps.LinkedMap.constructor | src/main/java/org/jfrog/hudson/pipeline/types/ConanClient.java:69 | `Maps.newLinkedHashMap()` is empty |
| LinkedMaps.LinkedMap.Put | src/main/java/org/jfrog/hudson/pipeline/types/ConanClient.java:70-73 | the map's new contents are `PutEntry` of the old ones, and a map with distinct keys keeps them distinct |
| LinkedMaps.LinkedMap.Remove | src/main/java/org/jfrog/hudson/pipeline/dsl/ArtifactoryPipelineGlobal.java:61 | returns what `get` yielded before (`Null` when absent), then the contents are `RemoveEntry` of the old ones, still with distinct keys |
| LinkedMaps.LinkedMap.Get | src/main/java/org/jfrog/hudson/pipeline/types/ConanClient.java:60-61 | yields `Lookup` of the contents |
| LinkedMaps.LinkedMap.ContainsKey | src/main/java/org/jfrog/hudson/pipeline/types/ConanClient.java:57 | true exactly when the key is in the key set |
| Host.CpsScript.InvokeMethod | src/main/java/org/jfrog/hudson/pipeline/dsl/ArtifactoryPipelineGlobal.java:32 | exactly one `Invoked(step, args)` is appended to the log; the result is a new object with no context |
| Host.CpsScript.AppendBuildInfo | src/main/java/org/jfrog/hudson/pipeline/types/ConanClient.java:62 | the map is rewritten in place by the build-info function, and exactly one `BuildInfoAppended` holding the map as it was is logged |
| Host.HostObject.SetCpsScript | src/main/java/org/jfrog/hudson/pipeline/dsl/ArtifactoryPipelineGlobal.java:33 | the returned object carries the script context |
| Validation.CheckDockerArguments | src/main/java/org/jfrog/hudson/pipeline/dsl/ArtifactoryPipelineGlobal.java:54-57 | accepts exactly the key sets within {username, password, credentialsId, host, server}, including the empty one; otherwise rejects with the exact message |
| Validation.CheckServerArguments | src/main/java/org/jfrog/hudson/pipeline/dsl/ArtifactoryPipelineGlobal.java:85-88 | accepts exactly the key sets within {url, username, password, credentialsId}; otherwise rejects with the exact message |
| Validation.CheckPromotionArguments | src/main/java/org/jfrog/hudson/pipeline/dsl/ArtifactoryPipelineGlobal.java:151-158 | a key set lacking `server` or `promotionConfig` gets the mandatory-key message whatever else it holds; one that has both but holds another key beyond `displayName` gets the allow-list message; it accepts exactly when both hold |
| Validation.CheckConanArguments | src/main/java/org/jfrog/hudson/pipeline/dsl/ArtifactoryPipelineGlobal.java:119-122 | accepts exactly a `userHome` that is a string with a non-whitespace character (missing, null, empty and whitespace-only are rejected) |
| Conan.LogFilePathExtendsHome | src/main/java/org/jfrog/hudson/pipeline/types/ConanClient.java:39-44 | the log path starts with the user home, adds exactly one separator when the home lacks a trailing one and none otherwise, and always ends with the separator and `conan_log.log` |
| Conan.LogFilePathJoinsDirectory | src/main/java/org/jfrog/hudson/pipeline/types/ConanClient.java:39-44 | the log path is the home without its trailing separator, one separator and the file name |
| Conan.LogFilePathIgnoresTrailingSeparator | src/main/java/org/jfrog/hudson/pipeline/types/ConanClient.java:39-44 | appending one separator to the home leaves the log path unchanged exactly when the home did not already end with one |
| Conan.PutsMakeRunCommandArguments | src/main/java/org/jfrog/hudson/pipeline/types/ConanClient.java:68-75 | the four `put`s produce `command`, `conanHome`, `buildLogPath`, `buildInfo` with their values, in that order, none overwriting another |
| Conan.ConanRemote.constructor | src/main/java/org/jfrog/hudson/pipeline/types/ConanClient.java:19 | a new remote has no context and no Conan home |
| Conan.ConanRemote.SetCpsScript | src/main/java/org/jfrog/hudson/pipeline/types/ConanClient.java:26 | sets the context and leaves the Conan home alone |
| Conan.ConanRemote.SetConanHome | src/main/java/org/jfrog/hudson/pipeline/types/ConanClient.java:36 | sets the Conan home and leaves the context alone |
| Conan.ConanClient.constructor | src/main/java/org/jfrog/hudson/pipeline/types/ConanClient.java:17-22 | a new client owns a new remote; it has no context and no user home, and its home is in sync with the remote's |
| Conan.ConanClient.SetCpsScript | src/main/java/org/jfrog/hudson/pipeline/types/ConanClient.java:24-27 | the context is stored on the client and on its current remote; the homes are untouched |
| Conan.ConanClient.GetUserPath | src/main/java/org/jfrog/hudson/pipeline/types/ConanClient.java:30-32 | yields the current user home |
| Conan.ConanClient.SetUserPath | src/main/java/org/jfrog/hudson/pipeline/types/ConanClient.java:34-37 | the user home and the current remote's Conan home both become the given path; the contexts are untouched |
| Conan.ConanClient.GetLogFilePath | src/main/java/org/jfrog/hudson/pipeline/types/ConanClient.java:39-44 | yields `LogFilePath` of the user home current at the call, so after `SetUserPath(q)` it reflects `q` |
| Conan.ConanClient.GetRemote | src/main/java/org/jfrog/hudson/pipeline/types/ConanClient.java:47-49 | yields the current remote |
| Conan.ConanClient.SetRemote | src/main/java/org/jfrog/hudson/pipeline/types/ConanClient.java:51-53 | replaces the remote and keeps the user home and context; the new remote's Conan home is left as it was (it is synced only by a later `SetUserPath`) |
| Conan.ConanClient.Run | src/main/java/org/jfrog/hudson/pipeline/types/ConanClient.java:55-66 | without a `command` key it throws with the exact message and logs nothing, whatever the client's state; with one (even bound to null) it logs exactly the build-info append of the four-key step map and then one `runConanCommand` invocation with the rewritten map, in that order |
| Conan.ConanClient.GetRunCommandExecutionArguments | src/main/java/org/jfrog/hudson/pipeline/types/ConanClient.java:68-75 | a new map holding `command`, `conanHome` = the user home, `buildLogPath` = its log path, `buildInfo` (possibly null), in that order |
| PipelineGlobal.Docker.FromProperties | src/main/java/org/jfrog/hudson/pipeline/dsl/ArtifactoryPipelineGlobal.java:63-64 | a Docker built from what is left of the bag, with no server and no context |
| PipelineGlobal.Docker.SetCpsScript | src/main/java/org/jfrog/hudson/pipeline/dsl/ArtifactoryPipelineGlobal.java:65 | sets the context and keeps the server |
| PipelineGlobal.Docker.SetServer | src/main/java/org/jfrog/hudson/pipeline/dsl/ArtifactoryPipelineGlobal.java:66-68 | sets the server and keeps the context |
| PipelineGlobal.MavenDescriptor.constructor | src/main/java/org/jfrog/hudson/pipeline/dsl/ArtifactoryPipelineGlobal.java:143 | a new descriptor has no context |
| PipelineGlobal.MavenDescriptor.SetCpsScript | src/main/java/org/jfrog/hudson/pipeline/dsl/ArtifactoryPipelineGlobal.java:144 | sets the context |
| PipelineGlobal.ArtifactoryPipelineGlobal.constructor | src/main/java/org/jfrog/hudson/pipeline/dsl/ArtifactoryPipelineGlobal.java:24-26 | keeps the script context |
| PipelineGlobal.ArtifactoryPipelineGlobal.Server | src/main/java/org/jfrog/hudson/pipeline/dsl/ArtifactoryPipelineGlobal.java:29-35 | exactly one `getArtifactoryServer` invocation, with the single key `artifactoryServerID` bound to the name (null when the name is null); the server returned carries the context |
| PipelineGlobal.ArtifactoryPipelineGlobal.DockerFromArguments | src/main/java/org/jfrog/hudson/pipeline/dsl/ArtifactoryPipelineGlobal.java:53-70 | a key outside the allow-list throws with the exact message and leaves the bag as it was; otherwise `server` is removed from the caller's bag in place, the rest becomes the Docker's properties, the server is what the bag held (null when absent), and the context is attached |
| PipelineGlobal.ArtifactoryPipelineGlobal.NewServer | src/main/java/org/jfrog/hudson/pipeline/dsl/ArtifactoryPipelineGlobal.java:73-81 | exactly one `newArtifactoryServer` invocation, with keys `url`, `username`, `password` in that order, each bound to its argument as given (null included); the server returned carries the context |
| PipelineGlobal.ArtifactoryPipelineGlobal.NewServerFromArguments | src/main/java/org/jfrog/hudson/pipeline/dsl/ArtifactoryPipelineGlobal.java:84-93 | a key outside the allow-list throws with the exact message and logs nothing; otherwise the bag itself, possibly empty, is the argument of exactly one `newArtifactoryServer` invocation, and the server returned carries the context |
| PipelineGlobal.ArtifactoryPipelineGlobal.NewBuildInfo | src/main/java/org/jfrog/hudson/pipeline/dsl/ArtifactoryPipelineGlobal.java:96-100 | exactly one `newBuildInfo` invocation with an empty map; the result carries the context |
| PipelineGlobal.ArtifactoryPipelineGlobal.NewMavenBuild | src/main/java/org/jfrog/hudson/pipeline/dsl/ArtifactoryPipelineGlobal.java:103-107 | exactly one `newMavenBuild` invocation with an empty map; the result carries the context |
| PipelineGlobal.ArtifactoryPipelineGlobal.NewGradleBuild | src/main/java/org/jfrog/hudson/pipeline/dsl/ArtifactoryPipelineGlobal.java:110-114 | exactly one `newGradleBuild` invocation with an empty map; the result carries the context |
| PipelineGlobal.ArtifactoryPipelineGlobal.NewConanClientFromArguments | src/main/java/org/jfrog/hudson/pipeline/dsl/ArtifactoryPipelineGlobal.java:117-129 | a missing, null or blank `userHome` throws with the exact message and logs nothing; otherwise a new client with that user home (synced to its remote) and the context on client and remote, and exactly one `initConanClient` invocation with the single key `client` bound to it |
| PipelineGlobal.ArtifactoryPipelineGlobal.NewConanClient | src/main/java/org/jfrog/hudson/pipeline/dsl/ArtifactoryPipelineGlobal.java:132-139 | a new client with no user home and the context on client and remote, and exactly one `initConanClient` invocation with the single key `client` bound to it |
| PipelineGlobal.ArtifactoryPipelineGlobal.NewMavenDescriptor | src/main/java/org/jfrog/hudson/pipeline/dsl/ArtifactoryPipelineGlobal.java:142-146 | a new descriptor carrying the context, with no invocation (the method may not touch the log) |
| PipelineGlobal.ArtifactoryPipelineGlobal.AddInteractivePromotion | src/main/java/org/jfrog/hudson/pipeline/dsl/ArtifactoryPipelineGlobal.java:149-163 | the mandatory-key check runs first, then the allow-list; a failure throws that check's message and logs nothing; on success exactly one `addInteractivePromotion` invocation with `promotionConfig` (the transformed configuration), `server`, `displayName` (null when absent), in that order |

## Left out

- What a host step does, CPS suspension and relocation, and `CpsCallableInvocation`: `invokeMethod` is a logged call that returns a new opaque object. It never touches the objects passed to it, so a step such as `initConanClient` cannot change the client.
- The class of a step's result: `ArtifactoryServer`, `BuildInfo`, `MavenBuild` and `GradleBuild` are all `Host.HostObject`, of which only `setCpsScript` is modelled. Their source files are not part of this model.
- `ObjectMapper.convertValue`: the Docker is built from the remaining bag as an opaque property list. The positional `docker(...)` overloads (ArtifactoryPipelineGlobal.java:37-50) call a `Docker` constructor that is not part of this model, so they are left out.
- `Utils.appendBuildInfo` and `Utils.createPromotionConfig`: their source is not part of this model; they are arbitrary functions fixed per script context.
- `ConanRemote`'s own source is not part of this model: a new remote is assumed to have neither context nor Conan home, and only the two setters the client calls are modelled.
- `ArtifactoryServer.SERVER` is not part of this model; its value is taken to be `"server"`.
- `File.separator` is fixed to `'/'`.
- `Serializable` and `transient`: the context is a plain field.
- Runtime class casts and their `ClassCastException`s: a map value is `Null`, a string or an object reference. Every cast except the `(String)` cast of `userHome` is unchecked: the `(String)` cast of `command`, the `(Map<String, Object>)` cast of `promotionConfig` and the casts of step results to `ArtifactoryServer`, `BuildInfo`, `MavenBuild` and `GradleBuild`. The `(String)` cast of `userHome` is excluded by a precondition, listed below.
- The step maps the facade builds locally are values of type `Entries`, reassigned by `PutEntry`. They are never shared before a step receives them. The Conan step map is a `LinkedMap` object, because `appendBuildInfo` rewrites it in place.
- Validation.CheckConanArguments: requires `userHome` not to be an object reference, where Java's `(String)` cast would throw `ClassCastException`.
- PipelineGlobal.ArtifactoryPipelineGlobal.NewConanClientFromArguments: requires `userHome` not to be an object reference, for the same cast.
- Conan.ConanClient.GetLogFilePath: requires a user home to be set. Java would otherwise produce the text `null` followed by the file name.
- Conan.ConanClient.GetRunCommandExecutionArguments: requires a user home to be set, for the same reason.
- Conan.ConanClient.Run: when `command` is present, requires a user home to be set, for the same reason. In that case it also requires a context, where Java would fail with a `NullPointerException` inside the host call. Without `command` it demands nothing and throws the documented exception.
- PipelineGlobal.ArtifactoryPipelineGlobal.DockerFromArguments: requires the argument bag to have distinct keys, which every Java map has.
- `StringUtils.isBlank` is modelled with `Character.isWhitespace` as of Java 9, applied to Unicode scalar values (Dafny's `char`). Under Java 8, U+180E would also count as whitespace. The verdicts agree with Java's on every string the model can represent, because no supplementary character is whitespace and a string of scalar values holds no lone surrogate.
