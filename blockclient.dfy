/**
 * Blocks of a space (ipamclient/block.go).
 *
 * The client sets a `Space` field on every block it returns, a field the `Block` record
 * declared in ipamclient/models.go does not have; `SpacedBlock` pairs the decoded block
 * with that space.
 */
module BlockClient {
  import opened Wrappers
  import opened GoText
  import opened Json
  import opened GoSlices
  import opened IpamModels
  import opened IpamClient

  datatype SpacedBlock = SpacedBlock(space: string, block: Block)

  /** One JSON Patch operation of an update request (`op`, `path`, `value`). */
  datatype PatchOp = PatchOp(op: string, path: string, value: string)

  function EncodePatchOp(p: PatchOp): (j: Json)
    ensures j.JObject? && j.members.Keys == {"op", "path", "value"}
    ensures j.members["op"] == JString(p.op) && j.members["path"] == JString(p.path)
    ensures j.members["value"] == JString(p.value)
  {
    JObject(map["op" := JString(p.op), "path" := JString(p.path), "value" := JString(p.value)])
  }

  /**
   * The body of a PATCH: the operations as a JSON array, in order. The slice starts empty but
   * not nil, so no operations encode as `[]`.
   */
  function PatchBody(ops: seq<PatchOp>): (j: Json)
    ensures j.JArray? && |j.items| == |ops|
    ensures forall k :: 0 <= k < |ops| ==> j.items[k] == EncodePatchOp(ops[k])
  {
    JArray(Map(EncodePatchOp, ops))
  }

  function BlocksUrl(c: Client, space: string): string {
    SpaceUrl(c, space) + "/blocks"
  }

  /** `GetBlocks`: one GET of the space's blocks with both flags in the query; the list comes back as decoded. */
  function GetBlocks(c: Client, space: string, expand: bool, appendUtilization: bool,
                     answer: Result<seq<Block>>): (o: Outcome<seq<Block>>)
    ensures o.Returned? && o.result == answer
    ensures o.sent == [Request(GET, SpaceUrl(c, space) + "/blocks" + ExpandQuery(expand, appendUtilization), None)]
  {
    Returned([Request(GET, BlocksUrl(c, space) + ExpandQuery(expand, appendUtilization), None)], answer)
  }

  function GetBlockRequest(c: Client, space: string, name: string, expand: bool, appendUtilization: bool): Request {
    Request(GET, BlockUrl(c, space, name) + ExpandQuery(expand, appendUtilization), None)
  }

  /** `GetBlock`: one GET of the named block; the decoded block is returned with the space asked for. */
  function GetBlock(c: Client, space: string, name: string, expand: bool, appendUtilization: bool,
                    answer: Result<Block>): (o: Outcome<SpacedBlock>)
    ensures o.Returned? && o.sent == [GetBlockRequest(c, space, name, expand, appendUtilization)]
    ensures o.sent[0].url == SpaceUrl(c, space) + "/blocks/" + name + "?expand=" + BoolText(expand)
                             + "&utilization=" + BoolText(appendUtilization)
    ensures answer.Err? ==> o.result == Err(answer.error)
    ensures answer.Ok? ==> o.result == Ok(SpacedBlock(space, answer.value))
  {
    Returned([GetBlockRequest(c, space, name, expand, appendUtilization)],
             match answer
             case Err(e) => Err(e)
             case Ok(block) => Ok(SpacedBlock(space, block)))
  }

  /** The body of `CreateBlock`: name and CIDR, both always present. */
  function BlockRequestBody(name: string, cidr: string): (j: Json)
    ensures j.JObject? && j.members.Keys == {"name", "cidr"}
    ensures j.members["name"] == JString(name) && j.members["cidr"] == JString(cidr)
  {
    JObject(map["name" := JString(name), "cidr" := JString(cidr)])
  }

  /** `CreateBlock`: POSTs {name, cidr} to the space's blocks; the decoded reply is stamped with the space. */
  function CreateBlock(c: Client, space: string, name: string, cidr: string,
                       answer: Result<Block>): (o: Outcome<SpacedBlock>)
    ensures o.Returned? && o.sent == [Request(POST, SpaceUrl(c, space) + "/blocks", Some(BlockRequestBody(name, cidr)))]
    ensures answer.Err? ==> o.result == Err(answer.error)
    ensures answer.Ok? ==> o.result == Ok(SpacedBlock(space, answer.value))
  {
    Returned([Request(POST, BlocksUrl(c, space), Some(BlockRequestBody(name, cidr)))],
             match answer
             case Err(e) => Err(e)
             case Ok(block) => Ok(SpacedBlock(space, block)))
  }

  /**
   * The patch the block and space updates send: "replace /name" when a new name is given,
   * then a "replace" of the second member, at `path`, when a new value for it is given.
   */
  function ReplacePatch(newName: Option<string>, path: string, newValue: Option<string>): (ops: seq<PatchOp>)
    ensures |ops| == (if newName.Some? then 1 else 0) + (if newValue.Some? then 1 else 0)
    ensures forall k :: 0 <= k < |ops| ==> ops[k].op == "replace"
    ensures newName.Some? ==> ops[0] == PatchOp("replace", "/name", newName.value)
    ensures newValue.Some? ==> ops[|ops| - 1] == PatchOp("replace", path, newValue.value)
    ensures forall k :: 0 <= k < |ops| ==> ops[k].path in {"/name", path}
  {
    (if newName.Some? then [PatchOp("replace", "/name", newName.value)] else [])
    + (if newValue.Some? then [PatchOp("replace", path, newValue.value)] else [])
  }

  /** The patch `UpdateBlock` sends: the second member is the CIDR. */
  function BlockPatch(newName: Option<string>, newCidr: Option<string>): seq<PatchOp> {
    ReplacePatch(newName, "/cidr", newCidr)
  }

  /** A JSON Patch "replace" applied to a block's `name` or `cidr` member (RFC 6902, section 4.3). */
  function ReplaceInBlock(b: Block, p: PatchOp): Block {
    if p.op != "replace" then b
    else if p.path == "/name" then b.(name := p.value)
    else if p.path == "/cidr" then b.(cidr := p.value)
    else b
  }

  /** The operations of a patch applied one after the other. */
  function ApplyBlockPatch(b: Block, ops: seq<PatchOp>): Block
    decreases |ops|
  {
    if ops == [] then b else ApplyBlockPatch(ReplaceInBlock(b, ops[0]), ops[1..])
  }

  /**
   * What the patch means on the server's block: the given name and CIDR replace the old ones,
   * and an absent one leaves the old value.
   */
  lemma {:induction false} BlockPatchMeaning(b: Block, newName: Option<string>, newCidr: Option<string>)
    ensures ApplyBlockPatch(b, BlockPatch(newName, newCidr))
            == b.(name := newName.GetOr(b.name), cidr := newCidr.GetOr(b.cidr))
  {
    var ops := BlockPatch(newName, newCidr);
    var b1 := if newName.Some? then b.(name := newName.value) else b;
    if newName.Some? {
      assert ops[1..] == (if newCidr.Some? then [PatchOp("replace", "/cidr", newCidr.value)] else []);
      assert ApplyBlockPatch(b, ops) == ApplyBlockPatch(b1, ops[1..]);
    } else {
      assert ops == (if newCidr.Some? then [PatchOp("replace", "/cidr", newCidr.value)] else []);
    }
    if newCidr.Some? {
      var last := [PatchOp("replace", "/cidr", newCidr.value)];
      assert ApplyBlockPatch(b1, last) == ApplyBlockPatch(b1.(cidr := newCidr.value), last[1..]);
    }
  }

  /**
   * `UpdateBlock`: builds the patch step by step and PATCHes the block; a failed PATCH is
   * wrapped. The block is then read back, unexpanded, under `*newName`, which panics when no
   * new name was given. `patchReply` and `readBack` answer the two requests.
   */
  method UpdateBlock(c: Client, space: string, name: string, newName: Option<string>, newCidr: Option<string>,
                     patchReply: Result<string>, readBack: Result<Block>) returns (o: Outcome<SpacedBlock>)
    ensures |o.sent| >= 1 && o.sent[0] == Request(PATCH, BlockUrl(c, space, name), Some(PatchBody(BlockPatch(newName, newCidr))))
    ensures patchReply.Err? ==> o == Returned([o.sent[0]], Err(";inner error: " + patchReply.error))
    ensures patchReply.Ok? && newName.None? ==> o == Panicked([o.sent[0]], NilDereference)
    ensures patchReply.Ok? && newName.Some? ==>
              o == Returned([o.sent[0]] + GetBlock(c, space, newName.value, false, false, readBack).sent,
                            GetBlock(c, space, newName.value, false, false, readBack).result)
  {
    var request: seq<PatchOp> := [];
    if newName.Some? {
      request := request + [PatchOp("replace", "/name", newName.value)];
    }
    if newCidr.Some? {
      request := request + [PatchOp("replace", "/cidr", newCidr.value)];
    }
    assert request == BlockPatch(newName, newCidr);
    var patch := Request(PATCH, BlockUrl(c, space, name), Some(PatchBody(request)));
    var wrapped := WrapUpdateError(patchReply);
    if wrapped.Err? {
      return Returned([patch], Err(wrapped.error));
    }
    if newName.None? {
      return Panicked([patch], NilDereference);
    }
    var read := GetBlock(c, space, newName.value, false, false, readBack);
    return Returned([patch] + read.sent, read.result);
  }

  /** `DeleteBlock`: DELETE with the force flag in the query; a non-empty reply is the error. */
  function DeleteBlock(c: Client, space: string, name: string, force: bool, reply: Result<string>): (o: Outcome<()>)
    ensures o.Returned? && o.sent == [Request(DELETE, BlockUrl(c, space, name) + "?force=" + BoolText(force), None)]
    ensures o.result.Ok? <==> reply == Ok("")
    ensures reply.Ok? && reply.value != "" ==> o.result == Err(reply.value)
  {
    Returned([Request(DELETE, BlockUrl(c, space, name) + "?force=" + BoolText(force), None)], EmptyBodyOrError(reply))
  }
}
