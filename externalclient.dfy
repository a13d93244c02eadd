/**
 * External networks of a block (ipamclient/external.go).
 *
 * The API describes an external network by name, description and CIDR, the shape of
 * `IpamModels.External`; the client returns it together with the space and block it
 * was asked about, as `ExternalNetwork`.
 */
module ExternalClient {
  import opened Wrappers
  import opened Json
  import opened GoSlices
  import opened IpamModels
  import opened IpamClient

  datatype ExternalNetwork = ExternalNetwork(space: string, block: string, name: string, description: string, cidr: string)

  const IndexMinusOne := "runtime error: index out of range [-1]"

  function ExternalsUrl(c: Client, space: string, block: string): string {
    BlockUrl(c, space, block) + "/externals"
  }

  function GetExternalsInfoRequest(c: Client, space: string, block: string): Request {
    Request(GET, ExternalsUrl(c, space, block), None)
  }

  /** `GetExternalsInfo`: one GET of the block's external networks; the list comes back as decoded. */
  function GetExternalsInfo(c: Client, space: string, block: string,
                            answer: Result<seq<External>>): (o: Outcome<seq<External>>)
    ensures o.Returned? && o.result == answer
    ensures o.sent == [Request(GET, BlockUrl(c, space, block) + "/externals", None)]
  {
    Returned([GetExternalsInfoRequest(c, space, block)], answer)
  }

  /** The external network as the client returns it: the space and block come from the caller. */
  function WithLocation(space: string, block: string, e: External): (n: ExternalNetwork)
    ensures n.space == space && n.block == block
    ensures n.name == e.name && n.description == e.description && n.cidr == e.cidr
  {
    ExternalNetwork(space, block, e.name, e.description, e.cidr)
  }

  function GetExternalRequest(c: Client, space: string, block: string, name: string): Request {
    Request(GET, ExternalsUrl(c, space, block) + "/" + name, None)
  }

  /**
   * `GetExternal`: one GET of the named external network. Name, description and CIDR come
   * from the reply; space and block are the ones asked for.
   */
  function GetExternal(c: Client, space: string, block: string, name: string,
                       answer: Result<External>): (o: Outcome<ExternalNetwork>)
    ensures o.Returned? && o.sent == [Request(GET, ExternalsUrl(c, space, block) + "/" + name, None)]
    ensures o.result.Ok? <==> answer.Ok?
    ensures answer.Err? ==> o.result == Err(answer.error)
    ensures answer.Ok? ==> o.result.value.space == space && o.result.value.block == block
    ensures answer.Ok? ==> o.result.value.name == answer.value.name && o.result.value.cidr == answer.value.cidr
                           && o.result.value.description == answer.value.description
  {
    Returned([GetExternalRequest(c, space, block, name)],
             match answer
             case Err(e) => Err(e)
             case Ok(readed) => Ok(WithLocation(space, block, readed)))
  }

  /** The body of one external network in a request: all three keys, without `omitempty`. */
  function EncodeExternalRequest(e: External): (j: Json)
    ensures j.JObject? && j.members.Keys == {"name", "desc", "cidr"}
    ensures j.members["name"] == JString(e.name) && j.members["desc"] == JString(e.description)
    ensures j.members["cidr"] == JString(e.cidr)
  {
    JObject(map["name" := JString(e.name), "desc" := JString(e.description), "cidr" := JString(e.cidr)])
  }

  /** `slices.IndexFunc` by name: the first position holding the name, or -1. */
  function IndexOfName(es: seq<External>, name: string): (i: int)
    ensures -1 <= i < |es|
    ensures i >= 0 ==> es[i].name == name && forall j :: 0 <= j < i ==> es[j].name != name
    ensures i == -1 <==> forall j :: 0 <= j < |es| ==> es[j].name != name
    decreases |es|
  {
    if es == [] then -1
    else if es[0].name == name then 0
    else var k := IndexOfName(es[1..], name); if k == -1 then -1 else k + 1
  }

  /**
   * `CreateExternal`: POSTs the new network; the reply is the block's whole list, in which the
   * first entry with the new name is returned. When the list holds no such entry, indexing it
   * at -1 panics.
   */
  function CreateExternal(c: Client, space: string, block: string, name: string, desc: string, cidr: string,
                          answer: Result<seq<External>>): (o: Outcome<ExternalNetwork>)
    ensures o.sent == [Request(POST, ExternalsUrl(c, space, block), Some(EncodeExternalRequest(External(name, desc, cidr))))]
    ensures o.Panicked? <==> answer.Ok? && forall j :: 0 <= j < |answer.value| ==> answer.value[j].name != name
    ensures answer.Err? ==> o == Returned(o.sent, Err(answer.error))
    ensures o.Returned? && o.result.Ok? ==>
              o.result.value.name == name && o.result.value.space == space && o.result.value.block == block
              && exists j :: 0 <= j < |answer.value| && answer.value[j] == External(name, o.result.value.description, o.result.value.cidr)
    ensures answer.Ok? && IndexOfName(answer.value, name) >= 0 ==>
              o == Returned(o.sent, Ok(WithLocation(space, block, answer.value[IndexOfName(answer.value, name)])))
  {
    var post := Request(POST, ExternalsUrl(c, space, block), Some(EncodeExternalRequest(External(name, desc, cidr))));
    match answer
    case Err(e) => Returned([post], Err(e))
    case Ok(externals) =>
      var i := IndexOfName(externals, name);
      if i == -1 then Panicked([post], IndexMinusOne)
      else Returned([post], Ok(WithLocation(space, block, externals[i])))
  }

  /**
   * Of several entries carrying the new name, `CreateExternal` returns the first, placed in
   * the requested space and block.
   */
  lemma CreateExternalReturnsFirst(c: Client, space: string, block: string, name: string, desc: string, cidr: string,
                                   externals: seq<External>, j: nat)
    requires j < |externals| && externals[j].name == name
    requires forall k :: 0 <= k < j ==> externals[k].name != name
    ensures CreateExternal(c, space, block, name, desc, cidr, Ok(externals))
            == Returned([Request(POST, ExternalsUrl(c, space, block), Some(EncodeExternalRequest(External(name, desc, cidr))))],
                        Ok(WithLocation(space, block, externals[j])))
  {
    var i := IndexOfName(externals, name);
    assert i != -1;
    assert i == j;
  }

  /**
   * The list `UpdateExternal` PUTs back: every entry carrying `name` replaced by `replacement`,
   * every other entry copied, in the same order.
   */
  function Rewritten(es: seq<External>, name: string, replacement: External): (r: seq<External>)
    ensures |r| == |es|
    ensures forall j :: 0 <= j < |es| ==> r[j] == (if es[j].name == name then replacement else es[j])
  {
    Map((e: External) => if e.name == name then replacement else e, es)
  }

  /** When no entry carries the name, the PUT sends the list back unchanged. */
  lemma RewrittenWithoutMatch(es: seq<External>, name: string, replacement: External)
    requires forall j :: 0 <= j < |es| ==> es[j].name != name
    ensures Rewritten(es, name, replacement) == es
  {
  }

  /** Rewriting under a name that is not the old one leaves no entry with the old name behind. */
  lemma RewrittenDropsOldName(es: seq<External>, name: string, replacement: External)
    requires replacement.name != name
    ensures forall j :: 0 <= j < |es| ==> Rewritten(es, name, replacement)[j].name != name
  {
  }

  predicate HasName(es: seq<External>, name: string) {
    exists j :: 0 <= j < |es| && es[j].name == name
  }

  function PutExternalsRequest(c: Client, space: string, block: string, es: seq<External>): Request {
    Request(PUT, ExternalsUrl(c, space, block), Some(JArray(Map(EncodeExternalRequest, es))))
  }

  /**
   * `UpdateExternal`: reads the block's whole list, builds the replacement list in a loop and
   * PUTs it back, then reads the network again under its new name. The new values are
   * pointers: they are dereferenced when an entry matches, and the new name once more for the
   * read-back, so a nil one panics there. `listed`, `putReply` and `readBack` answer the three
   * requests in order.
   */
  method UpdateExternal(c: Client, space: string, block: string, name: string,
                        newName: Option<string>, newDescription: Option<string>, newCidr: Option<string>,
                        listed: Result<seq<External>>, putReply: Result<string>, readBack: Result<External>)
    returns (o: Outcome<ExternalNetwork>)
    ensures |o.sent| >= 1 && o.sent[0] == GetExternalsInfoRequest(c, space, block)
    ensures listed.Err? ==> o == Returned([GetExternalsInfoRequest(c, space, block)], Err(listed.error))
    ensures listed.Ok? && HasName(listed.value, name) && (newName.None? || newDescription.None? || newCidr.None?) ==>
              o == Panicked([GetExternalsInfoRequest(c, space, block)], NilDereference)
    ensures listed.Ok? && (!HasName(listed.value, name) || (newName.Some? && newDescription.Some? && newCidr.Some?)) ==>
              |o.sent| >= 2
              && o.sent[1] == PutExternalsRequest(c, space, block,
                   Rewritten(listed.value, name, External(newName.GetOr(""), newDescription.GetOr(""), newCidr.GetOr(""))))
              && (putReply.Err? ==> o == Returned(o.sent[..2], Err(";inner error: " + putReply.error)))
              && (putReply.Ok? && newName.None? ==> o == Panicked(o.sent[..2], NilDereference))
              && (putReply.Ok? && newName.Some? ==>
                    o == Returned(o.sent[..2] + GetExternal(c, space, block, newName.value, readBack).sent,
                                  GetExternal(c, space, block, newName.value, readBack).result))
  {
    var listReq := GetExternalsInfoRequest(c, space, block);
    if listed.Err? {
      return Returned([listReq], Err(listed.error));
    }
    var externals := listed.value;
    var replacement := External(newName.GetOr(""), newDescription.GetOr(""), newCidr.GetOr(""));
    var request: seq<External> := [];
    var i := 0;
    while i < |externals|
      invariant 0 <= i <= |externals|
      invariant request == Rewritten(externals[..i], name, replacement)
      invariant forall j :: 0 <= j < i ==> externals[j].name != name || (newName.Some? && newDescription.Some? && newCidr.Some?)
    {
      var current := externals[i];
      if current.name == name {
        if newName.None? || newDescription.None? || newCidr.None? {
          return Panicked([listReq], NilDereference);
        }
        request := request + [External(newName.value, newDescription.value, newCidr.value)];
      } else {
        request := request + [External(current.name, current.description, current.cidr)];
      }
      i := i + 1;
    }
    assert externals[..i] == externals;
    var put := PutExternalsRequest(c, space, block, request);
    var wrapped := WrapUpdateError(putReply);
    if wrapped.Err? {
      return Returned([listReq, put], Err(wrapped.error));
    }
    if newName.None? {
      return Panicked([listReq, put], NilDereference);
    }
    var read := GetExternal(c, space, block, newName.value, readBack);
    return Returned([listReq, put] + read.sent, read.result);
  }

  /** `DeleteExternal`: DELETE of the named network, no body; a non-empty reply is the error. */
  function DeleteExternal(c: Client, space: string, block: string, name: string,
                          reply: Result<string>): (o: Outcome<()>)
    ensures o.Returned? && o.sent == [Request(DELETE, ExternalsUrl(c, space, block) + "/" + name, None)]
    ensures o.result.Ok? <==> reply == Ok("")
    ensures reply.Ok? && reply.value != "" ==> o.result == Err(reply.value)
  {
    Returned([Request(DELETE, ExternalsUrl(c, space, block) + "/" + name, None)], EmptyBodyOrError(reply))
  }
}
