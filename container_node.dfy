/**
 * The container configuration node: its servers, the lookups over them, and the
 * merge of a second container's servers into this one.
 */
module ContainerNode {
  import opened Wrappers
  import opened PhpArray
  import Glob

  /**
   * A server node. Its own `merge` is not part of this model: merging records the
   * merged-in node and keeps the name and the primary key.
   */
  datatype ServerNode = ServerNode(name: string, primaryKey: string, merged: seq<ServerNode>)

  function MergeServer(own: ServerNode, other: ServerNode): (r: ServerNode)
    ensures r.name == own.name && r.primaryKey == own.primaryKey && r.merged == own.merged + [other]
  {
    own.(merged := own.merged + [other])
  }

  /** The deployment configuration of a container, identified by its UUID. */
  datatype DeploymentNode = DeploymentNode(uuid: string, deploymentType: string)

  /** The servers array is keyed by each server's primary key. */
  predicate KeyedByPrimaryKey(servers: Assoc<ServerNode>) {
    UniqueKeys(servers) && forall i :: 0 <= i < |servers| ==> servers[i].0 == servers[i].1.primaryKey
  }

  /** Storing a server under its own primary key where that key already sits at index i replaces that entry only. */
  lemma PutAtOwnKey(servers: Assoc<ServerNode>, i: nat, v: ServerNode)
    requires KeyedByPrimaryKey(servers)
    requires i < |servers| && servers[i].0 == v.primaryKey
    ensures Put(servers, v.primaryKey, v) == servers[i := (v.primaryKey, v)]
    ensures KeyedByPrimaryKey(servers[i := (v.primaryKey, v)])
  {
    var r := Put(servers, v.primaryKey, v);
    assert v.primaryKey in Keys(servers);
    assert |r| == |servers|;
    forall k | 0 <= k < |r| ensures r[k] == servers[i := (v.primaryKey, v)][k] {
      if k != i { assert servers[k].0 != servers[i].0; }
    }
  }

  /** Attaching a server that already sits under its primary key leaves the array as it is. */
  lemma AttachInPlace(servers: Assoc<ServerNode>, i: nat, v: ServerNode)
    requires KeyedByPrimaryKey(servers)
    requires i < |servers| && servers[i] == (v.primaryKey, v)
    ensures Put(servers, v.primaryKey, v) == servers
  {
    PutAtOwnKey(servers, i, v);
    assert servers[i := (v.primaryKey, v)] == servers;
  }

  /**
   * The servers keyed by name, as `getServersAsArray` returns them; when two
   * servers share a name, the one that comes later in the servers array is kept.
   */
  function ServersByName(servers: Assoc<ServerNode>): (r: Assoc<ServerNode>)
    ensures UniqueKeys(r)
    ensures Keys(r) == set i | 0 <= i < |servers| :: servers[i].1.name
    ensures forall k :: k in Keys(r) ==>
              exists i :: 0 <= i < |servers| && servers[i].1.name == k && Get(r, k) == Some(servers[i].1) &&
                          forall j :: i < j < |servers| ==> servers[j].1.name != k
  {
    BuildBy(servers, (e: (string, ServerNode)) => e.1.name, (e: (string, ServerNode)) => e.1)
  }

  /** The servers array the configuration mapper fills: each server under its primary key, the later one winning. */
  function ByPrimaryKey(servers: seq<ServerNode>): (r: Assoc<ServerNode>)
    ensures KeyedByPrimaryKey(r)
    ensures Keys(r) == set i | 0 <= i < |servers| :: servers[i].primaryKey
  {
    var r := BuildBy(servers, (s: ServerNode) => s.primaryKey, (s: ServerNode) => s);
    EntriesOfKeyedPairs(Pairs(servers, (s: ServerNode) => s.primaryKey, (s: ServerNode) => s), r);
    r
  }

  /** Entries taken from (primary key, server) pairs sit under their server's primary key. */
  lemma EntriesOfKeyedPairs(pairs: seq<(string, ServerNode)>, r: Assoc<ServerNode>)
    requires forall j :: 0 <= j < |pairs| ==> pairs[j].0 == pairs[j].1.primaryKey
    requires forall i :: 0 <= i < |r| ==> r[i] in pairs
    ensures forall i :: 0 <= i < |r| ==> r[i].0 == r[i].1.primaryKey
  {
    forall i | 0 <= i < |r| ensures r[i].0 == r[i].1.primaryKey {
      var j :| 0 <= j < |pairs| && pairs[j] == r[i];
    }
  }

  /**
   * What merging one server with every incoming server whose name, read as a
   * glob pattern, matches its own name does to it, in the order of the incoming list.
   */
  function MergeMatching(own: ServerNode, incoming: seq<ServerNode>): ServerNode
  {
    if incoming == [] then own
    else MergeIfMatching(MergeMatching(own, incoming[..|incoming| - 1]), incoming[|incoming| - 1])
  }

  /** One comparison of `merge`: the own server merged with the other one if the other's name matches its name. */
  function MergeIfMatching(own: ServerNode, other: ServerNode): (r: ServerNode)
    ensures r.name == own.name && r.primaryKey == own.primaryKey
    ensures r.merged == own.merged + (if Glob.Matches(other.name, own.name) then [other] else [])
  {
    if Glob.Matches(other.name, own.name) then MergeServer(own, other) else own
  }

  lemma MergeMatchingStep(own: ServerNode, incoming: seq<ServerNode>, j: nat)
    requires j < |incoming|
    ensures MergeMatching(own, incoming[..j + 1]) == MergeIfMatching(MergeMatching(own, incoming[..j]), incoming[j])
  {
    assert incoming[..j + 1][..j] == incoming[..j];
  }

  /** The incoming servers whose name pattern matches the given name, in order. */
  function Matching(incoming: seq<ServerNode>, name: string): (r: seq<ServerNode>)
    ensures forall x :: x in r ==> x in incoming && Glob.Matches(x.name, name)
  {
    if incoming == [] then []
    else
      var init := incoming[..|incoming| - 1];
      var other := incoming[|incoming| - 1];
      Matching(init, name) + (if Glob.Matches(other.name, name) then [other] else [])
  }

  /** Merging never renames a server or moves it, and adds exactly the matching incoming servers. */
  lemma {:induction false} MergeMatchingEffect(own: ServerNode, incoming: seq<ServerNode>)
    ensures MergeMatching(own, incoming).name == own.name
    ensures MergeMatching(own, incoming).primaryKey == own.primaryKey
    ensures MergeMatching(own, incoming).merged == own.merged + Matching(incoming, own.name)
  {
    if incoming != [] {
      MergeMatchingEffect(own, incoming[..|incoming| - 1]);
    }
  }

  /** The servers array after `merge`: same keys in the same order, each server merged with its matches. */
  function MergedServers(servers: Assoc<ServerNode>, incoming: seq<ServerNode>): (r: Assoc<ServerNode>)
    ensures |r| == |servers|
    ensures forall i :: 0 <= i < |r| ==> r[i] == (servers[i].0, MergeMatching(servers[i].1, incoming))
  {
    seq(|servers|, i requires 0 <= i < |servers| => (servers[i].0, MergeMatching(servers[i].1, incoming)))
  }

  /**
   * `merge` only changes the servers this container already has: the keys, their
   * order and every server's name and primary key stay, so no server of the other
   * container becomes an entry of this one.
   */
  lemma MergeAttachesNothingNew(servers: Assoc<ServerNode>, incoming: seq<ServerNode>)
    requires KeyedByPrimaryKey(servers)
    ensures KeyedByPrimaryKey(MergedServers(servers, incoming))
    ensures Keys(MergedServers(servers, incoming)) == Keys(servers)
    ensures forall i :: 0 <= i < |servers| ==>
      MergedServers(servers, incoming)[i].1.name == servers[i].1.name &&
      MergedServers(servers, incoming)[i].1.merged == servers[i].1.merged + Matching(incoming, servers[i].1.name)
  {
    var r := MergedServers(servers, incoming);
    forall i | 0 <= i < |servers|
      ensures r[i].1.name == servers[i].1.name && r[i].1.primaryKey == servers[i].1.primaryKey
      ensures r[i].1.merged == servers[i].1.merged + Matching(incoming, servers[i].1.name)
    {
      MergeMatchingEffect(servers[i].1, incoming);
    }
  }

  class ContainerNode {
    const name: string
    /** Application provisioning; true unless the configuration says otherwise. */
    const provisioning: bool
    const deployment: DeploymentNode
    /** The resolved application base directory of the container's host. */
    const appBase: string
    var servers: Assoc<ServerNode>

    predicate Valid()
      reads this
    {
      KeyedByPrimaryKey(servers)
    }

    /** A node as the configuration mapper fills it, servers keyed by their primary key. */
    constructor(name: string, provisioning: Option<bool>, deployment: DeploymentNode, appBase: string, servers: seq<ServerNode>)
      ensures Valid()
      ensures this.name == name && this.deployment == deployment && this.appBase == appBase
      ensures this.provisioning == provisioning.GetOr(true)
      ensures Keys(this.servers) == set i | 0 <= i < |servers| :: servers[i].primaryKey
    {
      this.name := name;
      this.provisioning := provisioning.GetOr(true);
      this.deployment := deployment;
      this.appBase := appBase;
      this.servers := ByPrimaryKey(servers);
    }

    /** `getServersAsArray`; its contract is the one of `ServersByName`. */
    function GetServersAsArray(): Assoc<ServerNode>
      reads this
    {
      ServersByName(servers)
    }

    /** `getServer`: the first server whose name is identical to the given one, or null. */
    function GetServer(name: string): (r: Option<ServerNode>)
      reads this
      ensures r.None? <==> forall i :: 0 <= i < |servers| ==> servers[i].1.name != name
      ensures r.Some? ==> exists i :: 0 <= i < |servers| && servers[i].1 == r.value && r.value.name == name &&
                                     forall j :: 0 <= j < i ==> servers[j].1.name != name
    {
      match FirstWhere(servers, (e: (string, ServerNode)) => e.1.name == name)
      case None => None
      case Some(i) => Some(servers[i].1)
    }

    /** `attachServer`: the server is stored under its primary key, replacing what was there. */
    method AttachServer(server: ServerNode)
      requires Valid()
      modifies this
      ensures Valid()
      ensures servers == Put(old(servers), server.primaryKey, server)
    {
      servers := Put(servers, server.primaryKey, server);
    }

    /**
     * One pass of the inner `foreach` of `merge`: the own server at index i is
     * merged, in place, with the other container's server if the other's name
     * matches, and is attached again under its primary key otherwise.
     */
    method MergeStep(i: nat, serverNodeToMerge: ServerNode)
      requires Valid() && i < |servers|
      modifies this
      ensures Valid()
      ensures servers == old(servers)[i := (old(servers)[i].0, MergeIfMatching(old(servers)[i].1, serverNodeToMerge))]
    {
      var serverNode := servers[i].1;
      if Glob.Matches(serverNodeToMerge.name, serverNode.name) {
        PutAtOwnKey(servers, i, MergeServer(serverNode, serverNodeToMerge));
        servers := servers[i := (serverNode.primaryKey, MergeServer(serverNode, serverNodeToMerge))];
      } else {
        AttachInPlace(servers, i, serverNode);
        AttachServer(serverNode);
      }
    }

    /** The inner `foreach` of `merge` for the own server at index i. */
    method MergeServerAt(i: nat, incoming: seq<ServerNode>)
      requires Valid() && i < |servers|
      modifies this
      ensures Valid()
      ensures servers == old(servers)[i := (old(servers)[i].0, MergeMatching(old(servers)[i].1, incoming))]
    {
      ghost var before := servers;
      var j := 0;
      while j < |incoming|
        invariant 0 <= j <= |incoming|
        invariant Valid()
        invariant servers == before[i := (before[i].0, MergeMatching(before[i].1, incoming[..j]))]
      {
        MergeMatchingStep(before[i].1, incoming, j);
        MergeStep(i, incoming[j]);
        j := j + 1;
      }
      assert incoming[..|incoming|] == incoming;
    }

    /**
     * `merge`: for every own server and every server of the other container, the
     * own server is merged with the other one when the other's name, read as a
     * glob pattern, matches the own server's name, and is attached again under its
     * own primary key otherwise.
     */
    method Merge(other: ContainerNode)
      requires Valid()
      modifies this
      ensures Valid()
      ensures servers == MergedServers(old(servers), Values(old(other.servers)))
    {
      var snapshot := servers;
      var incoming := Values(other.servers);
      var i := 0;
      while i < |snapshot|
        invariant 0 <= i <= |snapshot|
        invariant Valid() && |servers| == |snapshot|
        invariant forall k :: 0 <= k < i ==> servers[k] == (snapshot[k].0, MergeMatching(snapshot[k].1, incoming))
        invariant forall k :: i <= k < |snapshot| ==> servers[k] == snapshot[k]
      {
        MergeServerAt(i, incoming);
        i := i + 1;
      }
    }
  }
}
