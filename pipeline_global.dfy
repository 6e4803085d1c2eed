/** The `Artifactory` object a pipeline script talks to. Each operation
    checks the argument bag it is given, builds the ordered step map, invokes
    the named host step (or builds a local object), and attaches the script
    context to what it returns. A failed check throws before anything else
    happens: no step is invoked and no object is handed out. */
module PipelineGlobal {
  import opened LinkedMaps
  import opened Host
  import opened Validation
  import opened Conan

  /** A Docker client built from an argument bag: the properties the bag
      supplied, the server it was given and the script context. */
  class Docker {
    /** What the generic field mapping made of the bag, which (having had its
        `server` removed) holds only `username`, `password`, `credentialsId`
        and `host`. */
    const properties: Entries
    var server: Value
    var cpsScript: CpsScript?

    /** `ObjectMapper.convertValue(bag, Docker.class)`. */
    constructor FromProperties(properties: Entries)
      ensures this.properties == properties && server == Null && cpsScript == null
    {
      this.properties := properties;
      server := Null;
      cpsScript := null;
    }

    method SetCpsScript(script: CpsScript)
      modifies this
      ensures cpsScript == script && server == old(server)
    {
      cpsScript := script;
    }

    method SetServer(server: Value)
      modifies this
      ensures this.server == server && cpsScript == old(cpsScript)
    {
      this.server := server;
    }
  }

  class MavenDescriptor {
    var cpsScript: CpsScript?

    constructor ()
      ensures cpsScript == null
    {
      cpsScript := null;
    }

    method SetCpsScript(script: CpsScript)
      modifies this
      ensures cpsScript == script
    {
      cpsScript := script;
    }
  }

  class ArtifactoryPipelineGlobal {
    const cpsScript: CpsScript

    constructor (script: CpsScript)
      ensures cpsScript == script
    {
      cpsScript := script;
    }

    /** Looks a configured server up by its id. */
    method Server(serverName: Option<string>) returns (server: HostObject)
      modifies cpsScript
      ensures cpsScript.log == old(cpsScript.log) + [Invoked("getArtifactoryServer", [("artifactoryServerID", StringValue(serverName))])]
      ensures fresh(server) && server.cpsScript == cpsScript
    {
      var stepVariables: Entries := [];
      stepVariables := PutEntry(stepVariables, "artifactoryServerID", StringValue(serverName));
      assert stepVariables == [("artifactoryServerID", StringValue(serverName))];
      server := cpsScript.InvokeMethod("getArtifactoryServer", stepVariables);
      server.SetCpsScript(cpsScript);
    }

    /** Builds a Docker client from a bag whose keys must all be among
        `username`, `password`, `credentialsId`, `host` and `server`. The
        `server` entry is taken out of the caller's bag, the rest becomes the
        client's properties, and the server is set when it is not null. */
    method DockerFromArguments(dockerArguments: LinkedMap) returns (res: Result<Docker>)
      requires dockerArguments.Valid()
      modifies dockerArguments
      ensures dockerArguments.Valid()
      ensures CheckDockerArguments(KeySet(old(dockerArguments.entries))).Reject? ==>
        && res == IllegalArgument(DOCKER_MESSAGE)
        && dockerArguments.entries == old(dockerArguments.entries)
      ensures CheckDockerArguments(KeySet(old(dockerArguments.entries))).Accept? ==>
        && res.Ok? && fresh(res.value)
        && dockerArguments.entries == RemoveEntry(old(dockerArguments.entries), "server")
        && res.value.properties == dockerArguments.entries
        && res.value.server == Lookup(old(dockerArguments.entries), "server")
        && res.value.cpsScript == cpsScript
    {
      if CheckDockerArguments(KeySet(dockerArguments.entries)).Reject? {
        return IllegalArgument(DOCKER_MESSAGE);
      }
      var server := dockerArguments.Remove("server");
      var docker := new Docker.FromProperties(dockerArguments.entries);
      docker.SetCpsScript(cpsScript);
      if server != Null {
        docker.SetServer(server);
      }
      return Ok(docker);
    }

    /** Creates a server from a URL and credentials, any of which may be null. */
    method NewServer(url: Option<string>, username: Option<string>, password: Option<string>) returns (server: HostObject)
      modifies cpsScript
      ensures cpsScript.log == old(cpsScript.log) +
        [Invoked("newArtifactoryServer", [("url", StringValue(url)), ("username", StringValue(username)),
                                          ("password", StringValue(password))])]
      ensures fresh(server) && server.cpsScript == cpsScript
    {
      var stepVariables: Entries := [];
      stepVariables := PutEntry(stepVariables, "url", StringValue(url));
      stepVariables := PutEntry(stepVariables, "username", StringValue(username));
      stepVariables := PutEntry(stepVariables, "password", StringValue(password));
      assert stepVariables == [("url", StringValue(url)), ("username", StringValue(username)),
                               ("password", StringValue(password))];
      server := cpsScript.InvokeMethod("newArtifactoryServer", stepVariables);
      server.SetCpsScript(cpsScript);
    }

    /** Creates a server from a bag whose keys must all be among `url`,
        `username`, `password` and `credentialsId`; the bag itself, in its own
        order, is the step's argument map. */
    method NewServerFromArguments(serverArguments: LinkedMap) returns (res: Result<HostObject>)
      modifies cpsScript
      ensures CheckServerArguments(KeySet(serverArguments.entries)).Reject? ==>
        res == IllegalArgument(SERVER_MESSAGE) && cpsScript.log == old(cpsScript.log)
      ensures CheckServerArguments(KeySet(serverArguments.entries)).Accept? ==>
        && cpsScript.log == old(cpsScript.log) + [Invoked("newArtifactoryServer", serverArguments.entries)]
        && res.Ok? && fresh(res.value) && res.value.cpsScript == cpsScript
    {
      if CheckServerArguments(KeySet(serverArguments.entries)).Reject? {
        return IllegalArgument(SERVER_MESSAGE);
      }
      var server := cpsScript.InvokeMethod("newArtifactoryServer", serverArguments.entries);
      server.SetCpsScript(cpsScript);
      return Ok(server);
    }

    method NewBuildInfo() returns (buildInfo: HostObject)
      modifies cpsScript
      ensures cpsScript.log == old(cpsScript.log) + [Invoked("newBuildInfo", [])]
      ensures fresh(buildInfo) && buildInfo.cpsScript == cpsScript
    {
      var stepVariables: Entries := [];
      buildInfo := cpsScript.InvokeMethod("newBuildInfo", stepVariables);
      buildInfo.SetCpsScript(cpsScript);
    }

    method NewMavenBuild() returns (mavenBuild: HostObject)
      modifies cpsScript
      ensures cpsScript.log == old(cpsScript.log) + [Invoked("newMavenBuild", [])]
      ensures fresh(mavenBuild) && mavenBuild.cpsScript == cpsScript
    {
      var stepVariables: Entries := [];
      mavenBuild := cpsScript.InvokeMethod("newMavenBuild", stepVariables);
      mavenBuild.SetCpsScript(cpsScript);
    }

    method NewGradleBuild() returns (gradleBuild: HostObject)
      modifies cpsScript
      ensures cpsScript.log == old(cpsScript.log) + [Invoked("newGradleBuild", [])]
      ensures fresh(gradleBuild) && gradleBuild.cpsScript == cpsScript
    {
      var stepVariables: Entries := [];
      gradleBuild := cpsScript.InvokeMethod("newGradleBuild", stepVariables);
      gradleBuild.SetCpsScript(cpsScript);
    }

    /** Creates a Conan client whose user home is the bag's `userHome`, which
        must be a string that is not blank; no other key is looked at. The
        `initConanClient` step gets the client as its only argument, and what
        the step returns is dropped. */
    method NewConanClientFromArguments(clientArgs: LinkedMap) returns (res: Result<ConanClient>)
      requires !Lookup(clientArgs.entries, "userHome").Ref?
      modifies cpsScript
      ensures CheckConanArguments(Lookup(clientArgs.entries, "userHome")).Reject? ==>
        res == IllegalArgument(CONAN_MESSAGE) && cpsScript.log == old(cpsScript.log)
      ensures CheckConanArguments(Lookup(clientArgs.entries, "userHome")).Accept? ==>
        && res.Ok? && fresh(res.value) && fresh(res.value.remote)
        && res.value.userPath == Some(Lookup(clientArgs.entries, "userHome").s)
        && res.value.HomeInSync()
        && res.value.cpsScript == cpsScript && res.value.remote.cpsScript == cpsScript
        && cpsScript.log == old(cpsScript.log) + [Invoked("initConanClient", [("client", Ref(res.value))])]
    {
      var client := new ConanClient();
      var userPath := clientArgs.Get("userHome");
      if IsBlank(userPath) {
        return IllegalArgument(CONAN_MESSAGE);
      }
      client.SetUserPath(Some(userPath.s));
      client.SetCpsScript(cpsScript);
      var args: Entries := [];
      args := PutEntry(args, "client", Ref(client));
      assert args == [("client", Ref(client))];
      var _ := cpsScript.InvokeMethod("initConanClient", args);
      return Ok(client);
    }

    /** Creates a Conan client with no user home set. */
    method NewConanClient() returns (client: ConanClient)
      modifies cpsScript
      ensures fresh(client) && fresh(client.remote)
      ensures client.userPath == None && client.HomeInSync()
      ensures client.cpsScript == cpsScript && client.remote.cpsScript == cpsScript
      ensures cpsScript.log == old(cpsScript.log) + [Invoked("initConanClient", [("client", Ref(client))])]
    {
      client := new ConanClient();
      client.SetCpsScript(cpsScript);
      var args: Entries := [];
      args := PutEntry(args, "client", Ref(client));
      assert args == [("client", Ref(client))];
      var _ := cpsScript.InvokeMethod("initConanClient", args);
    }

    /** A Maven descriptor, built here without any step. */
    method NewMavenDescriptor() returns (descriptorHandler: MavenDescriptor)
      ensures fresh(descriptorHandler) && descriptorHandler.cpsScript == cpsScript
    {
      descriptorHandler := new MavenDescriptor();
      descriptorHandler.SetCpsScript(cpsScript);
    }

    /** Registers an interactive promotion. `server` and `promotionConfig` are
        mandatory and checked first; then no key beyond them and
        `displayName` is allowed. The step map holds the transformed
        configuration, the server and the display name (null when absent), in
        that order. */
    method AddInteractivePromotion(promotionArguments: LinkedMap) returns (res: Result<()>)
      modifies cpsScript
      ensures CheckPromotionArguments(KeySet(promotionArguments.entries)).Reject? ==>
        && res == IllegalArgument(CheckPromotionArguments(KeySet(promotionArguments.entries)).message)
        && cpsScript.log == old(cpsScript.log)
      ensures CheckPromotionArguments(KeySet(promotionArguments.entries)).Accept? ==>
        && res == Ok(())
        && cpsScript.log == old(cpsScript.log) + [Invoked("addInteractivePromotion", [
             ("promotionConfig", cpsScript.createPromotionConfig(Lookup(promotionArguments.entries, "promotionConfig"), false)),
             ("server", Lookup(promotionArguments.entries, "server")),
             ("displayName", Lookup(promotionArguments.entries, "displayName"))])]
    {
      var stepVariables: Entries := [];
      var verdict := CheckPromotionArguments(KeySet(promotionArguments.entries));
      if verdict.Reject? {
        return IllegalArgument(verdict.message);
      }
      var promotionConfig := promotionArguments.Get("promotionConfig");
      stepVariables := PutEntry(stepVariables, "promotionConfig", cpsScript.createPromotionConfig(promotionConfig, false));
      var server := promotionArguments.Get("server");
      stepVariables := PutEntry(stepVariables, "server", server);
      var displayName := promotionArguments.Get("displayName");
      stepVariables := PutEntry(stepVariables, "displayName", displayName);
      assert stepVariables == [("promotionConfig", cpsScript.createPromotionConfig(promotionConfig, false)), ("server", server), ("displayName", displayName)];
      var _ := cpsScript.InvokeMethod("addInteractivePromotion", stepVariables);
      return Ok(());
    }
  }
}
