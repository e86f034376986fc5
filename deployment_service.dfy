/**
 * The deployment service: the deployment nodes of the configured containers keyed
 * by UUID, the system properties prepared for a web application, the context of a
 * web application, and the merge of the containers an application declares into
 * the system configuration.
 */
module DeploymentService {
  import opened Wrappers
  import opened PhpArray
  import PhpStrings
  import ContainerNode

  type DeploymentNode = ContainerNode.DeploymentNode
  type ServerNode = ContainerNode.ServerNode

  /** A container configuration as the deployment service sees it: its name, deployment and servers. */
  datatype ContainerConfig = ContainerConfig(name: string, deployment: DeploymentNode, servers: Assoc<ServerNode>)

  /** A context configuration: its name, its web application path and the context nodes merged into it. */
  datatype ContextNode = ContextNode(name: string, webappPath: string, merged: seq<ContextNode>)

  /** The system property keys the service sets; other keys are named by their own text. */
  datatype PropertyKey = Webapp | WebappName | Other(key: string)

  /** `findAll`: each container's deployment under its UUID; of two containers with one UUID the later one counts. */
  function FindAll(containers: seq<ContainerConfig>): (r: Assoc<DeploymentNode>)
    ensures UniqueKeys(r)
    ensures Keys(r) == set i | 0 <= i < |containers| :: containers[i].deployment.uuid
    ensures forall u :: u in Keys(r) ==>
              exists i :: 0 <= i < |containers| && containers[i].deployment.uuid == u &&
                          Get(r, u) == Some(containers[i].deployment) &&
                          forall j :: i < j < |containers| ==> containers[j].deployment.uuid != u
  {
    BuildBy(containers, (c: ContainerConfig) => c.deployment.uuid, (c: ContainerConfig) => c.deployment)
  }

  /** `load`: the deployment `findAll` has under the UUID, or null when it has none. */
  function Load(containers: seq<ContainerConfig>, uuid: string): (r: Option<DeploymentNode>)
    ensures r.None? <==> forall i :: 0 <= i < |containers| ==> containers[i].deployment.uuid != uuid
    ensures r.Some? ==> exists i :: 0 <= i < |containers| && r == Some(containers[i].deployment) &&
                                    containers[i].deployment.uuid == uuid &&
                                    forall j :: i < j < |containers| ==> containers[j].deployment.uuid != uuid
  {
    LoadFound(containers, uuid);
    if uuid in Keys(FindAll(containers)) then Get(FindAll(containers), uuid) else None
  }

  lemma LoadFound(containers: seq<ContainerConfig>, uuid: string)
    ensures uuid !in Keys(FindAll(containers)) <==> forall i :: 0 <= i < |containers| ==> containers[i].deployment.uuid != uuid
    ensures uuid in Keys(FindAll(containers)) ==>
              exists i :: 0 <= i < |containers| && Get(FindAll(containers), uuid) == Some(containers[i].deployment) &&
                          containers[i].deployment.uuid == uuid &&
                          forall j :: i < j < |containers| ==> containers[j].deployment.uuid != uuid
  {
    UuidIsKey(containers, uuid);
    if uuid in Keys(FindAll(containers)) {
      LastWithUuid(containers, uuid);
    }
  }

  lemma UuidIsKey(containers: seq<ContainerConfig>, uuid: string)
    ensures uuid !in Keys(FindAll(containers)) <==> forall i :: 0 <= i < |containers| ==> containers[i].deployment.uuid != uuid
  {
    if exists i :: 0 <= i < |containers| && containers[i].deployment.uuid == uuid {
      var i :| 0 <= i < |containers| && containers[i].deployment.uuid == uuid;
      assert uuid in set i | 0 <= i < |containers| :: containers[i].deployment.uuid;
    }
  }

  lemma LastWithUuid(containers: seq<ContainerConfig>, uuid: string)
    requires uuid in Keys(FindAll(containers))
    ensures exists i :: 0 <= i < |containers| && Get(FindAll(containers), uuid) == Some(containers[i].deployment) &&
                        containers[i].deployment.uuid == uuid &&
                        forall j :: i < j < |containers| ==> containers[j].deployment.uuid != uuid
  {
    var all := FindAll(containers);
    var i :| 0 <= i < |containers| && containers[i].deployment.uuid == uuid &&
             Get(all, uuid) == Some(containers[i].deployment) &&
             forall j :: i < j < |containers| ==> containers[j].deployment.uuid != uuid;
    assert Get(all, uuid) == Some(containers[i].deployment);
  }

  /** The properties a web application's configuration files are read with. */
  class SystemProperties {
    var entries: map<PropertyKey, string>

    constructor(entries: map<PropertyKey, string>)
      ensures this.entries == entries
    {
      this.entries := entries;
    }

    /** `add`: sets the key to the value. */
    method Add(key: PropertyKey, value: string)
      modifies this
      ensures entries == old(entries)[key := value]
    {
      entries := entries[key := value];
    }
  }

  /** `prepareSystemProperties`: the web application's path and its last path component. */
  method PrepareSystemProperties(properties: SystemProperties, webappPath: string)
    modifies properties
    ensures properties.entries == old(properties.entries)[Webapp := webappPath][WebappName := PhpStrings.Basename(webappPath)]
  {
    properties.Add(Webapp, webappPath);
    properties.Add(WebappName, PhpStrings.Basename(webappPath));
  }

  /** After preparing, the name property of an application directory `dir/name` is name. */
  method PrepareForChildDirectory(properties: SystemProperties, dir: string, name: string)
    requires name != [] && '/' !in name
    modifies properties
    ensures Webapp in properties.entries && properties.entries[Webapp] == dir + "/" + name
    ensures WebappName in properties.entries && properties.entries[WebappName] == name
  {
    PrepareSystemProperties(properties, dir + "/" + name);
    PhpStrings.BasenameOfChild(dir, name, 0);
    assert dir + "/" + name + PhpStrings.Slashes(0) == dir + "/" + name;
  }

  /** The values of the files that could be read, in order. */
  function Successes<T>(files: seq<Result<T, string>>): (r: seq<T>)
    ensures |r| <= |files|
  {
    if files == [] then []
    else
      var last := files[|files| - 1];
      Successes(files[..|files| - 1]) + (if last.Success? then [last.value] else [])
  }

  /** The errors of the files that could not be read, in order. */
  function Failures<T>(files: seq<Result<T, string>>): (r: seq<string>)
    ensures |r| <= |files|
  {
    if files == [] then []
    else
      var last := files[|files| - 1];
      Failures(files[..|files| - 1]) + (if last.Failure? then [last.error] else [])
  }

  /** Every file is either used or reported, none of them both and none left out. */
  lemma {:induction false} EveryFileHandled<T>(files: seq<Result<T, string>>)
    ensures |Successes(files)| + |Failures(files)| == |files|
  {
    if files != [] {
      EveryFileHandled(files[..|files| - 1]);
    }
  }

  /**
   * The loop of `loadContextInstance` over the application's context files: each
   * file that could be read is merged into the context, the error of each other
   * file is reported, and the files after it are still processed.
   */
  method MergeContextFiles(context: ContextNode, contextFiles: seq<Result<ContextNode, string>>)
    returns (merged: ContextNode, errors: seq<string>)
    ensures merged.name == context.name && merged.webappPath == context.webappPath
    ensures merged.merged == context.merged + Successes(contextFiles)
    ensures errors == Failures(contextFiles)
  {
    merged := context;
    errors := [];
    var i := 0;
    while i < |contextFiles|
      invariant 0 <= i <= |contextFiles|
      invariant merged.name == context.name && merged.webappPath == context.webappPath
      invariant merged.merged == context.merged + Successes(contextFiles[..i])
      invariant errors == Failures(contextFiles[..i])
    {
      assert contextFiles[..i + 1][..i] == contextFiles[..i];
      match contextFiles[i] {
        case Success(instance) =>
          merged := merged.(merged := merged.merged + [instance]);
        case Failure(e) =>
          errors := errors + [e];
      }
      i := i + 1;
    }
    assert contextFiles[..|contextFiles|] == contextFiles;
  }

  /** What the host's configuration holds for a context name, as a list of at most one context. */
  function HostContext(hostContexts: map<string, ContextNode>, name: string): seq<ContextNode>
  {
    if name in hostContexts then [hostContexts[name]] else []
  }

  /**
   * `loadContextInstance` for the web application at webappPath: the base context
   * merged with the host's context of the same name, if there is one, and with
   * every application context file that could be read, named after the path's
   * last component.
   */
  method LoadContextInstance(properties: SystemProperties, base: ContextNode, hostContexts: map<string, ContextNode>,
                             contextFiles: seq<Result<ContextNode, string>>, webappPath: string)
    returns (context: ContextNode, errors: seq<string>)
    modifies properties
    ensures context.name == PhpStrings.Basename(webappPath)
    ensures context.webappPath == webappPath
    ensures context.merged == base.merged + HostContext(hostContexts, PhpStrings.Basename(webappPath)) + Successes(contextFiles)
    ensures errors == Failures(contextFiles)
    ensures properties.entries == old(properties.entries)[Webapp := webappPath][WebappName := PhpStrings.Basename(webappPath)]
  {
    var contextPath := PhpStrings.Basename(webappPath);
    properties.Add(Webapp, webappPath);
    properties.Add(WebappName, contextPath);
    context := base.(webappPath := webappPath);
    if contextPath in hostContexts {
      context := context.(merged := context.merged + [hostContexts[contextPath]]);
    }
    assert context.merged == base.merged + HostContext(hostContexts, contextPath);
    ghost var before := context.merged;
    context, errors := MergeContextFiles(context, contextFiles);
    assert context.merged == before + Successes(contextFiles);
    context := context.(name := contextPath);
  }

  /** The merge of a container configuration: its servers merged with those of the other. */
  function MergeContainer(own: ContainerConfig, other: ContainerConfig): ContainerConfig
  {
    own.(servers := ContainerNode.MergedServers(own.servers, Values(other.servers)))
  }

  /**
   * The container configuration is the container node seen as a value: merging
   * two nodes holding the servers of two configurations leaves the first node with
   * the servers of `MergeContainer` of the two.
   */
  method MergeAgreesWithNode(node: ContainerNode.ContainerNode, other: ContainerNode.ContainerNode,
                             own: ContainerConfig, loaded: ContainerConfig)
    requires node.Valid()
    requires node.servers == own.servers && other.servers == loaded.servers
    modifies node
    ensures node.servers == MergeContainer(own, loaded).servers
  {
    node.Merge(other);
  }

  /** Index of the first container with the given name. */
  function FirstNamed(containers: seq<ContainerConfig>, name: string): (r: Option<nat>)
    ensures r.None? <==> forall i :: 0 <= i < |containers| ==> containers[i].name != name
    ensures r.Some? ==> r.value < |containers| && containers[r.value].name == name &&
                        forall j :: 0 <= j < r.value ==> containers[j].name != name
  {
    FirstWhere(containers, (c: ContainerConfig) => c.name == name)
  }

  /**
   * One loaded container: merged into the first system container of the same
   * name, or attached at the end when there is none.
   */
  function MergeOrAttach(containers: seq<ContainerConfig>, c: ContainerConfig): seq<ContainerConfig>
  {
    match FirstNamed(containers, c.name)
    case Some(i) => containers[i := MergeContainer(containers[i], c)]
    case None => containers + [c]
  }

  /** The names of the containers. */
  function Names(containers: seq<ContainerConfig>): set<string>
  {
    set i | 0 <= i < |containers| :: containers[i].name
  }

  /**
   * Exactly one of merge and attach happens: a known name changes one container in
   * place, keeping its name and deployment, and an unknown one adds the loaded
   * container; either way the names afterwards are the old ones and the loaded one.
   */
  lemma MergeOrAttachEffect(containers: seq<ContainerConfig>, c: ContainerConfig)
    ensures Names(MergeOrAttach(containers, c)) == Names(containers) + {c.name}
    ensures c.name in Names(containers) ==>
              exists i :: 0 <= i < |containers| && containers[i].name == c.name &&
                          MergeOrAttach(containers, c) == containers[i := MergeContainer(containers[i], c)]
    ensures c.name !in Names(containers) ==> MergeOrAttach(containers, c) == containers + [c]
  {
    MergeOrAttachNames(containers, c);
  }

  lemma MergeOrAttachNames(containers: seq<ContainerConfig>, c: ContainerConfig)
    ensures Names(MergeOrAttach(containers, c)) == Names(containers) + {c.name}
  {
    var r := MergeOrAttach(containers, c);
    match FirstNamed(containers, c.name)
    case Some(i) =>
      assert forall j :: 0 <= j < |r| ==> r[j].name == containers[j].name;
      assert Names(r) == Names(containers);
    case None =>
      assert forall j :: 0 <= j < |containers| ==> r[j] == containers[j];
      assert r[|containers|] == c;
      assert Names(r) == Names(containers) + {c.name};
  }

  /** The containers of one containers file merged or attached in order. */
  function MergeAll(containers: seq<ContainerConfig>, loaded: seq<ContainerConfig>): seq<ContainerConfig>
  {
    if loaded == [] then containers
    else MergeOrAttach(MergeAll(containers, loaded[..|loaded| - 1]), loaded[|loaded| - 1])
  }

  /** Merging a list loaded in two parts is merging the first part, then the second. */
  lemma {:induction false} MergeAllAppend(containers: seq<ContainerConfig>, a: seq<ContainerConfig>, b: seq<ContainerConfig>)
    ensures MergeAll(containers, a + b) == MergeAll(MergeAll(containers, a), b)
  {
    if b == [] {
      assert a + b == a;
    } else {
      assert (a + b)[..|a + b| - 1] == a + b[..|b| - 1];
      MergeAllAppend(containers, a, b[..|b| - 1]);
    }
  }

  /** After merging, the system knows the names it knew and the loaded ones. */
  lemma {:induction false} MergeAllNames(containers: seq<ContainerConfig>, loaded: seq<ContainerConfig>)
    ensures Names(MergeAll(containers, loaded)) == Names(containers) + Names(loaded)
  {
    if loaded != [] {
      var init := loaded[..|loaded| - 1];
      var last := loaded[|loaded| - 1];
      var m := MergeAll(containers, init);
      MergeAllNames(containers, init);
      MergeOrAttachNames(m, last);
      assert loaded == init + [last];
      NamesChain(containers, init, last, m, MergeOrAttach(m, last));
    }
  }

  lemma NamesChain(containers: seq<ContainerConfig>, init: seq<ContainerConfig>, last: ContainerConfig,
                   m: seq<ContainerConfig>, r: seq<ContainerConfig>)
    requires Names(m) == Names(containers) + Names(init)
    requires Names(r) == Names(m) + {last.name}
    ensures Names(r) == Names(containers) + Names(init + [last])
  {
    NamesSnoc(init, last);
  }

  lemma NamesSnoc(init: seq<ContainerConfig>, last: ContainerConfig)
    ensures Names(init + [last]) == Names(init) + {last.name}
  {
    var s := init + [last];
    assert forall i :: 0 <= i < |init| ==> s[i] == init[i];
    assert s[|init|] == last;
  }

  /** Merging never removes a system container nor renames or redeploys one. */
  lemma {:induction false} MergeAllKeepsOwn(containers: seq<ContainerConfig>, loaded: seq<ContainerConfig>)
    ensures |MergeAll(containers, loaded)| >= |containers|
    ensures forall i :: 0 <= i < |containers| ==>
              MergeAll(containers, loaded)[i].name == containers[i].name &&
              MergeAll(containers, loaded)[i].deployment == containers[i].deployment
  {
    if loaded != [] {
      var init := loaded[..|loaded| - 1];
      MergeAllKeepsOwn(containers, init);
      MergeOrAttachKeepsOwn(MergeAll(containers, init), loaded[|loaded| - 1]);
    }
  }

  lemma MergeOrAttachKeepsOwn(containers: seq<ContainerConfig>, c: ContainerConfig)
    ensures |MergeOrAttach(containers, c)| >= |containers|
    ensures forall i :: 0 <= i < |containers| ==>
              MergeOrAttach(containers, c)[i].name == containers[i].name &&
              MergeOrAttach(containers, c)[i].deployment == containers[i].deployment
  {
  }

  /** The containers of every containers file that could be read, merged or attached file by file. */
  function MergeFiles(containers: seq<ContainerConfig>, files: seq<Result<seq<ContainerConfig>, string>>): seq<ContainerConfig>
  {
    if files == [] then containers
    else
      var before := MergeFiles(containers, files[..|files| - 1]);
      match files[|files| - 1]
      case Success(loaded) => MergeAll(before, loaded)
      case Failure(_) => before
  }

  function Concat<T>(xss: seq<seq<T>>): seq<T>
  {
    if xss == [] then [] else Concat(xss[..|xss| - 1]) + xss[|xss| - 1]
  }

  /** A file that cannot be read changes nothing: the result is that of the readable files' containers, in order. */
  lemma {:induction false} BadFilesSkipped(containers: seq<ContainerConfig>, files: seq<Result<seq<ContainerConfig>, string>>)
    ensures MergeFiles(containers, files) == MergeAll(containers, Concat(Successes(files)))
  {
    if files != [] {
      var init := files[..|files| - 1];
      BadFilesSkipped(containers, init);
      match files[|files| - 1]
      case Success(loaded) =>
        assert Successes(files) == Successes(init) + [loaded];
        MergeAllAppend(containers, Concat(Successes(init)), loaded);
        assert Concat(Successes(files)) == Concat(Successes(init)) + loaded by {
          assert Successes(files)[..|Successes(files)| - 1] == Successes(init);
        }
      case Failure(_) =>
        assert Successes(files) == Successes(init);
    }
  }

  /** The system configuration the applications' containers are merged into. */
  class SystemConfiguration {
    var containers: seq<ContainerConfig>
    /** `getAllowApplicationConfiguration()`; None when the configuration leaves it unset. */
    const allowApplicationConfiguration: Option<bool>

    constructor(containers: seq<ContainerConfig>, allow: Option<bool>)
      ensures this.containers == containers && allowApplicationConfiguration == allow
    {
      this.containers := containers;
      allowApplicationConfiguration := allow;
    }

    /** `getContainer`: the position of the first container with the given name; its contract is that of `FirstNamed`. */
    function GetContainer(name: string): Option<nat>
      reads this
    {
      FirstNamed(containers, name)
    }

    /** `attachContainer`: the container is added after the others. */
    method AttachContainer(c: ContainerConfig)
      modifies this
      ensures containers == old(containers) + [c]
    {
      containers := containers + [c];
    }

    /** `merge` on the container at position i. */
    method MergeContainerAt(i: nat, other: ContainerConfig)
      requires i < |containers|
      modifies this
      ensures containers == old(containers)[i := MergeContainer(old(containers)[i], other)]
    {
      containers := containers[i := MergeContainer(containers[i], other)];
    }
  }

  /**
   * The inner loop of `loadContainerInstance` for one containers file: each of its
   * containers is merged into the system container of the same name, or attached.
   */
  method MergeContainers(system: SystemConfiguration, loaded: seq<ContainerConfig>)
    modifies system
    ensures system.containers == MergeAll(old(system.containers), loaded)
  {
    var i := 0;
    while i < |loaded|
      invariant 0 <= i <= |loaded|
      invariant system.containers == MergeAll(old(system.containers), loaded[..i])
    {
      assert loaded[..i + 1][..i] == loaded[..i];
      var c := loaded[i];
      match system.GetContainer(c.name) {
        case Some(k) => system.MergeContainerAt(k, c);
        case None => system.AttachContainer(c);
      }
      i := i + 1;
    }
    assert loaded[..|loaded|] == loaded;
  }

  /**
   * `loadContainerInstance` for one web application, given what reading each of
   * its containers files gave: the containers of every readable file are merged
   * or attached, and the error of every unreadable file is reported; the files
   * after an unreadable one are still processed.
   */
  method LoadContainerInstance(system: SystemConfiguration, systemProperties: map<PropertyKey, string>, webappPath: string,
                               files: seq<Result<seq<ContainerConfig>, string>>)
    returns (errors: seq<string>)
    modifies system
    ensures system.containers == MergeFiles(old(system.containers), files)
    ensures errors == Failures(files)
  {
    errors := [];
    var i := 0;
    while i < |files|
      invariant 0 <= i <= |files|
      invariant system.containers == MergeFiles(old(system.containers), files[..i])
      invariant errors == Failures(files[..i])
    {
      assert files[..i + 1][..i] == files[..i];
      ghost var before := system.containers;
      match files[i] {
        case Success(loaded) =>
          LoadContainersFile(system, systemProperties, webappPath, loaded);
          assert system.containers == MergeAll(before, loaded);
        case Failure(e) =>
          errors := errors + [e];
      }
      i := i + 1;
    }
    assert files[..|files|] == files;
  }

  /**
   * The body of the `try` of `loadContainerInstance` for a containers file that
   * could be read: the system properties are prepared for the application and the
   * file's containers are merged or attached.
   */
  method LoadContainersFile(system: SystemConfiguration, systemProperties: map<PropertyKey, string>, webappPath: string,
                            loaded: seq<ContainerConfig>)
    modifies system
    ensures system.containers == MergeAll(old(system.containers), loaded)
  {
    var properties := new SystemProperties(systemProperties);
    PrepareSystemProperties(properties, webappPath);
    assert system.containers == old(system.containers);
    MergeContainers(system, loaded);
  }

  /** A web application directory and what reading each of its containers files gave. */
  datatype Application = Application(webappPath: string, files: seq<Result<seq<ContainerConfig>, string>>)

  /** The containers after `loadContainerInstance` ran for each application in turn. */
  function MergeApplications(containers: seq<ContainerConfig>, apps: seq<Application>): seq<ContainerConfig>
  {
    if apps == [] then containers
    else MergeFiles(MergeApplications(containers, apps[..|apps| - 1]), apps[|apps| - 1].files)
  }

  /**
   * `loadContainerInstances`: nothing is loaded when application configuration is
   * disallowed (the setting is strictly false); otherwise the containers of every
   * application are merged in.
   */
  method LoadContainerInstances(system: SystemConfiguration, systemProperties: map<PropertyKey, string>, apps: seq<Application>)
    returns (errors: seq<string>)
    modifies system
    ensures system.allowApplicationConfiguration == Some(false) ==> system.containers == old(system.containers) && errors == []
    ensures system.allowApplicationConfiguration != Some(false) ==>
              system.containers == MergeApplications(old(system.containers), apps)
  {
    errors := [];
    if system.allowApplicationConfiguration == Some(false) {
      return;
    }
    var i := 0;
    while i < |apps|
      invariant 0 <= i <= |apps|
      invariant system.containers == MergeApplications(old(system.containers), apps[..i])
    {
      assert apps[..i + 1][..i] == apps[..i];
      var e := LoadContainerInstance(system, systemProperties, apps[i].webappPath, apps[i].files);
      errors := errors + e;
      i := i + 1;
    }
    assert apps[..|apps|] == apps;
  }
}
