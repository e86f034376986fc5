/**
 * The authentications of a configuration node: a list of authentication nodes,
 * each with a URI and its parameters, searched by URI and turned into an array
 * keyed by URI.
 */
module AuthenticationsNode {
  import opened Wrappers
  import opened PhpArray

  /** An authentication node: its URI and its parameters as `getParamsAsArray` returns them. */
  datatype AuthenticationNode = AuthenticationNode(uri: string, params: Assoc<string>)

  /** The authentications of a node; none unless the configuration lists some. */
  datatype AuthenticationsNode = AuthenticationsNode(authentications: seq<AuthenticationNode>)

  const Default := AuthenticationsNode([])

  /**
   * `getAuthentication`: the first authentication whose URI is identical to the
   * given one; `false` (here `None`) when none has it.
   */
  function GetAuthentication(node: AuthenticationsNode, uri: string): (r: Option<AuthenticationNode>)
    ensures r.None? <==> forall i :: 0 <= i < |node.authentications| ==> node.authentications[i].uri != uri
    ensures r.Some? ==> r.value.uri == uri &&
                        exists i :: 0 <= i < |node.authentications| && node.authentications[i] == r.value &&
                                    forall j :: 0 <= j < i ==> node.authentications[j].uri != uri
  {
    match FirstWhere(node.authentications, (a: AuthenticationNode) => a.uri == uri)
    case None => None
    case Some(i) => Some(node.authentications[i])
  }

  /**
   * `getAuthenticationsAsArray`: each URI mapped to the parameters of its
   * authentication; of two authentications with one URI the later one is kept.
   */
  function GetAuthenticationsAsArray(node: AuthenticationsNode): (r: Assoc<Assoc<string>>)
    ensures UniqueKeys(r)
    ensures Keys(r) == set i | 0 <= i < |node.authentications| :: node.authentications[i].uri
    ensures forall k :: k in Keys(r) ==>
              exists i :: 0 <= i < |node.authentications| && node.authentications[i].uri == k &&
                          Get(r, k) == Some(node.authentications[i].params) &&
                          forall j :: i < j < |node.authentications| ==> node.authentications[j].uri != k
  {
    BuildBy(node.authentications, (a: AuthenticationNode) => a.uri, (a: AuthenticationNode) => a.params)
  }

  /** `getAuthentication(u)` finds something exactly when u is a key of `getAuthenticationsAsArray()`. */
  lemma FoundIffKey(node: AuthenticationsNode, uri: string)
    ensures GetAuthentication(node, uri).Some? <==> uri in Keys(GetAuthenticationsAsArray(node))
  {
    var auths := node.authentications;
    if uri in Keys(GetAuthenticationsAsArray(node)) {
      var i :| 0 <= i < |auths| && auths[i].uri == uri;
    }
  }

  /**
   * When a URI is used once only, `getAuthentication` and `getAuthenticationsAsArray`
   * agree on it: the array holds the parameters of the node the search finds.
   */
  lemma UniqueUriAgrees(node: AuthenticationsNode, i: nat)
    requires i < |node.authentications|
    requires forall j :: 0 <= j < |node.authentications| && j != i ==> node.authentications[j].uri != node.authentications[i].uri
    ensures GetAuthentication(node, node.authentications[i].uri) == Some(node.authentications[i])
    ensures Get(GetAuthenticationsAsArray(node), node.authentications[i].uri) == Some(node.authentications[i].params)
  {
    UniqueUriFound(node.authentications, i);
    UniqueUriStored(node, i);
  }

  lemma UniqueUriFound(auths: seq<AuthenticationNode>, i: nat)
    requires i < |auths|
    requires forall j :: 0 <= j < |auths| && j != i ==> auths[j].uri != auths[i].uri
    ensures GetAuthentication(AuthenticationsNode(auths), auths[i].uri) == Some(auths[i])
  {
    var r := GetAuthentication(AuthenticationsNode(auths), auths[i].uri);
    assert r.Some?;
    var i' :| 0 <= i' < |auths| && auths[i'] == r.value;
    assert auths[i'].uri == auths[i].uri;
  }

  lemma UniqueUriStored(node: AuthenticationsNode, i: nat)
    requires i < |node.authentications|
    requires forall j :: 0 <= j < |node.authentications| && j != i ==> node.authentications[j].uri != node.authentications[i].uri
    ensures Get(GetAuthenticationsAsArray(node), node.authentications[i].uri) == Some(node.authentications[i].params)
  {
    var auths := node.authentications;
    var uri := auths[i].uri;
    var r := GetAuthenticationsAsArray(node);
    assert uri in Keys(r);
    var i' :| 0 <= i' < |auths| && auths[i'].uri == uri && Get(r, uri) == Some(auths[i'].params);
    assert i' == i;
  }

  /** A node without authentications finds none and yields an empty array. */
  lemma DefaultIsEmpty(uri: string)
    ensures GetAuthentication(Default, uri) == None
    ensures GetAuthenticationsAsArray(Default) == []
  {
    assert Keys(GetAuthenticationsAsArray(Default)) == {};
  }
}
