/**
 * Spaces (ipamclient/space.go).
 *
 * The element type of the update patch, `spaceUpdateRequest`, is not part of this model;
 * it is taken to have the shape of the block patch operation, `BlockClient.PatchOp`.
 */
module SpaceClient {
  import opened Wrappers
  import opened GoText
  import opened Json
  import opened IpamModels
  import opened IpamClient
  import opened BlockClient

  function SpacesUrl(c: Client): string {
    c.hostUrl + "/api/spaces"
  }

  /** `GetSpaces`: one GET of every space with both flags in the query; the list comes back as decoded. */
  function GetSpaces(c: Client, expand: bool, appendUtilization: bool,
                     answer: Result<seq<Space>>): (o: Outcome<seq<Space>>)
    ensures o.Returned? && o.result == answer
    ensures o.sent == [Request(GET, c.hostUrl + "/api/spaces" + ExpandQuery(expand, appendUtilization), None)]
  {
    Returned([Request(GET, SpacesUrl(c) + ExpandQuery(expand, appendUtilization), None)], answer)
  }

  function GetSpaceRequest(c: Client, name: string, expand: bool, appendUtilization: bool): Request {
    Request(GET, SpaceUrl(c, name) + ExpandQuery(expand, appendUtilization), None)
  }

  /** `GetSpace`: one GET of the named space with both flags in the query; the space comes back as decoded. */
  function GetSpace(c: Client, name: string, expand: bool, appendUtilization: bool,
                    answer: Result<Space>): (o: Outcome<Space>)
    ensures o.Returned? && o.result == answer
    ensures o.sent == [Request(GET, c.hostUrl + "/api/spaces/" + name + ExpandQuery(expand, appendUtilization), None)]
  {
    Returned([GetSpaceRequest(c, name, expand, appendUtilization)], answer)
  }

  /** `CreateSpace`: POSTs {name, desc}, both keys always present; the space comes back as decoded. */
  function CreateSpace(c: Client, name: string, description: string, answer: Result<Space>): (o: Outcome<Space>)
    ensures o.Returned? && o.result == answer && |o.sent| == 1
    ensures o.sent[0].verb == POST && o.sent[0].url == c.hostUrl + "/api/spaces"
    ensures o.sent[0].body.Some? && o.sent[0].body.value.JObject?
    ensures o.sent[0].body.value.members == map["name" := JString(name), "desc" := JString(description)]
  {
    Returned([Request(POST, SpacesUrl(c), Some(EncodeSpaceRequest(SpaceRequest(name, description))))], answer)
  }

  /** The patch `UpdateSpace` sends: the second member is the description. */
  function SpacePatch(newName: Option<string>, newDescription: Option<string>): seq<PatchOp> {
    ReplacePatch(newName, "/desc", newDescription)
  }

  /** A JSON Patch "replace" applied to a space's `name` or `desc` member (RFC 6902, section 4.3). */
  function ReplaceInSpace(s: Space, p: PatchOp): Space {
    if p.op != "replace" then s
    else if p.path == "/name" then s.(name := p.value)
    else if p.path == "/desc" then s.(description := p.value)
    else s
  }

  /** The operations of a patch applied one after the other. */
  function ApplySpacePatch(s: Space, ops: seq<PatchOp>): Space
    decreases |ops|
  {
    if ops == [] then s else ApplySpacePatch(ReplaceInSpace(s, ops[0]), ops[1..])
  }

  /**
   * What the patch means on the server's space: the given name and description replace the
   * old ones, and an absent one leaves the old value.
   */
  lemma {:induction false} SpacePatchMeaning(s: Space, newName: Option<string>, newDescription: Option<string>)
    ensures ApplySpacePatch(s, SpacePatch(newName, newDescription))
            == s.(name := newName.GetOr(s.name), description := newDescription.GetOr(s.description))
  {
    var ops := SpacePatch(newName, newDescription);
    var s1 := if newName.Some? then s.(name := newName.value) else s;
    if newName.Some? {
      assert ops[1..] == (if newDescription.Some? then [PatchOp("replace", "/desc", newDescription.value)] else []);
      assert ApplySpacePatch(s, ops) == ApplySpacePatch(s1, ops[1..]);
    } else {
      assert ops == (if newDescription.Some? then [PatchOp("replace", "/desc", newDescription.value)] else []);
    }
    if newDescription.Some? {
      var last := [PatchOp("replace", "/desc", newDescription.value)];
      assert ApplySpacePatch(s1, last) == ApplySpacePatch(s1.(description := newDescription.value), last[1..]);
    }
  }

  /**
   * `UpdateSpace`: builds the patch step by step and PATCHes the space; a failed PATCH is
   * wrapped. The space is then read back, unexpanded, under `*newName`, which panics when no
   * new name was given. `patchReply` and `readBack` answer the two requests.
   */
  method UpdateSpace(c: Client, name: string, newName: Option<string>, newDescription: Option<string>,
                     patchReply: Result<string>, readBack: Result<Space>) returns (o: Outcome<Space>)
    ensures |o.sent| >= 1 && o.sent[0] == Request(PATCH, SpaceUrl(c, name), Some(PatchBody(SpacePatch(newName, newDescription))))
    ensures patchReply.Err? ==> o == Returned([o.sent[0]], Err(";inner error: " + patchReply.error))
    ensures patchReply.Ok? && newName.None? ==> o == Panicked([o.sent[0]], NilDereference)
    ensures patchReply.Ok? && newName.Some? ==>
              o == Returned([o.sent[0], GetSpaceRequest(c, newName.value, false, false)], readBack)
  {
    var request: seq<PatchOp> := [];
    if newName.Some? {
      request := request + [PatchOp("replace", "/name", newName.value)];
    }
    if newDescription.Some? {
      request := request + [PatchOp("replace", "/desc", newDescription.value)];
    }
    assert request == SpacePatch(newName, newDescription);
    var patch := Request(PATCH, SpaceUrl(c, name), Some(PatchBody(request)));
    var wrapped := WrapUpdateError(patchReply);
    if wrapped.Err? {
      return Returned([patch], Err(wrapped.error));
    }
    if newName.None? {
      return Panicked([patch], NilDereference);
    }
    var read := GetSpace(c, newName.value, false, false, readBack);
    return Returned([patch] + read.sent, read.result);
  }

  /** `DeleteSpace`: DELETE with the force flag in the query; a non-empty reply is the error. */
  function DeleteSpace(c: Client, name: string, force: bool, reply: Result<string>): (o: Outcome<()>)
    ensures o.Returned? && o.sent == [Request(DELETE, SpaceUrl(c, name) + "?force=" + BoolText(force), None)]
    ensures o.result.Ok? <==> reply == Ok("")
    ensures reply.Ok? && reply.value != "" ==> o.result == Err(reply.value)
  {
    Returned([Request(DELETE, SpaceUrl(c, name) + "?force=" + BoolText(force), None)], EmptyBodyOrError(reply))
  }
}
