/**
 * Virtual networks associated with a block (ipamclient/blockNetwork.go).
 *
 * `BlockNetworkInfo` and `BlockInfo` are declared outside ipamclient/models.go; the record
 * below holds the fields the provider reads from a block network.
 */
module BlockNetworkClient {
  import opened Wrappers
  import opened GoText
  import opened Json
  import opened IpamClient

  datatype BlockNetworkInfo = BlockNetworkInfo(
    id: string,
    name: string,
    prefixes: seq<string>,
    resourceGroup: Option<string>,
    subscriptionId: Option<string>,
    tenantId: Option<string>)

  function NetworksUrl(c: Client, space: string, block: string): string {
    BlockUrl(c, space, block) + "/networks"
  }

  /** `GetBlockNetworksAvailables`: one GET of the ids that could be associated; the list comes back as decoded. */
  function GetBlockNetworksAvailables(c: Client, space: string, block: string,
                                      answer: Result<seq<string>>): (o: Outcome<seq<string>>)
    ensures o.Returned? && o.result == answer
    ensures o.sent == [Request(GET, BlockUrl(c, space, block) + "/available", None)]
  {
    Returned([Request(GET, BlockUrl(c, space, block) + "/available", None)], answer)
  }

  function GetBlockNetworksInfoRequest(c: Client, space: string, block: string, expand: bool): Request {
    Request(GET, NetworksUrl(c, space, block) + "?expand=" + BoolText(expand), None)
  }

  /** `GetBlockNetworksInfo`: one GET of the block's networks, expanded or not; the list comes back as decoded. */
  function GetBlockNetworksInfo(c: Client, space: string, block: string, expand: bool,
                                answer: Result<seq<BlockNetworkInfo>>): (o: Outcome<seq<BlockNetworkInfo>>)
    ensures o.Returned? && o.result == answer
    ensures |o.sent| == 1 && o.sent[0].verb == GET && o.sent[0].body.None?
    ensures o.sent[0].url == NetworksUrl(c, space, block) + (if expand then "?expand=true" else "?expand=false")
  {
    Returned([GetBlockNetworksInfoRequest(c, space, block, expand)], answer)
  }

  /** The position of the last network with the given id, if there is one. */
  function LastWithId(ns: seq<BlockNetworkInfo>, id: string): (k: Option<nat>)
    ensures k.Some? ==> k.value < |ns| && ns[k.value].id == id
    ensures k.Some? ==> forall j :: k.value < j < |ns| ==> ns[j].id != id
    ensures k.None? <==> forall j :: 0 <= j < |ns| ==> ns[j].id != id
    decreases |ns|
  {
    if ns == [] then None
    else if ns[|ns| - 1].id == id then Some(|ns| - 1)
    else LastWithId(ns[..|ns| - 1], id)
  }

  /**
   * `GetBlockNetworkInfo`: lists the block's networks and scans all of them without stopping,
   * keeping the last one whose id matches; no match is an error.
   */
  method GetBlockNetworkInfo(c: Client, space: string, block: string, id: string, expand: bool,
                             answer: Result<seq<BlockNetworkInfo>>) returns (o: Outcome<BlockNetworkInfo>)
    ensures o.Returned? && o.sent == [GetBlockNetworksInfoRequest(c, space, block, expand)]
    ensures answer.Err? ==> o.result == Err(answer.error)
    ensures answer.Ok? ==> match LastWithId(answer.value, id)
      case Some(k) => o.result == Ok(answer.value[k])
      case None => o.result == Err("invalid block network id")
  {
    var listed := GetBlockNetworksInfo(c, space, block, expand, answer);
    if listed.result.Err? {
      return Returned(listed.sent, Err(listed.result.error));
    }
    var networks := listed.result.value;
    var networkInfo: Option<BlockNetworkInfo> := None;
    var i := 0;
    while i < |networks|
      invariant 0 <= i <= |networks|
      invariant networkInfo == match LastWithId(networks[..i], id)
        case Some(k) => Some(networks[k])
        case None => None
    {
      assert networks[..i + 1][..i] == networks[..i];
      if networks[i].id == id {
        networkInfo := Some(networks[i]);
      }
      i := i + 1;
    }
    assert networks[..i] == networks;
    if networkInfo.None? {
      return Returned(listed.sent, Err("invalid block network id"));
    }
    return Returned(listed.sent, Ok(networkInfo.value));
  }

  /** When exactly one listed network carries the id, the scan returns that one. */
  lemma {:induction false} LastWithIdUnique(ns: seq<BlockNetworkInfo>, id: string, j: nat)
    requires j < |ns| && ns[j].id == id
    requires forall k :: 0 <= k < |ns| && k != j ==> ns[k].id != id
    ensures LastWithId(ns, id) == Some(j)
    decreases |ns|
  {
    if j < |ns| - 1 {
      LastWithIdUnique(ns[..|ns| - 1], id, j);
    }
  }

  /** The body of a network association: the id, marked active. */
  function BlockNetworkRequestBody(id: string): (j: Json)
    ensures j.JObject? && j.members.Keys == {"id", "active"}
    ensures j.members["id"] == JString(id) && j.members["active"] == JBool(true)
  {
    JObject(map["id" := JString(id), "active" := JBool(true)])
  }

  /**
   * `CreateBlockNetwork`: POSTs the association; the reply must decode as a block, whose
   * contents are not used. The network is then read back with `GetBlockNetworkInfo`, expanded.
   * `created` is the reply to the POST, `listed` the answer to the read-back.
   */
  method CreateBlockNetwork(c: Client, space: string, block: string, id: string,
                            created: Result<()>, listed: Result<seq<BlockNetworkInfo>>)
    returns (o: Outcome<BlockNetworkInfo>)
    ensures o.Returned?
    ensures |o.sent| >= 1 && o.sent[0] == Request(POST, NetworksUrl(c, space, block), Some(BlockNetworkRequestBody(id)))
    ensures created.Err? ==> |o.sent| == 1 && o.result == Err(created.error)
    ensures created.Ok? ==> o.sent[1..] == [GetBlockNetworksInfoRequest(c, space, block, true)]
    ensures created.Ok? && listed.Err? ==> o.result == Err(listed.error)
    ensures created.Ok? && listed.Ok? ==> match LastWithId(listed.value, id)
      case Some(k) => o.result == Ok(listed.value[k])
      case None => o.result == Err("invalid block network id")
  {
    var post := Request(POST, NetworksUrl(c, space, block), Some(BlockNetworkRequestBody(id)));
    if created.Err? {
      return Returned([post], Err(created.error));
    }
    var readBack := GetBlockNetworkInfo(c, space, block, id, true, listed);
    return Returned([post] + readBack.sent, readBack.result);
  }

  /** `DeleteBlockNetwork`: DELETE with the id as a one-element JSON array; a non-empty reply is the error. */
  function DeleteBlockNetwork(c: Client, space: string, block: string, id: string,
                              reply: Result<string>): (o: Outcome<()>)
    ensures o.Returned? && o.sent == [Request(DELETE, NetworksUrl(c, space, block), Some(IdListBody(id)))]
    ensures o.result.Ok? <==> reply == Ok("")
    ensures reply.Ok? && reply.value != "" ==> o.result == Err(reply.value)
  {
    Returned([Request(DELETE, NetworksUrl(c, space, block), Some(IdListBody(id)))], EmptyBodyOrError(reply))
  }
}
