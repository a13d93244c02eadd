/**
 * The block resource (internal/provider/block_resource.go): its handlers route the plan and
 * state attributes to the client's block operations, and its import id is "{space}/{name}".
 */
module BlockResource {
  import opened Wrappers
  import opened GoText
  import opened Tf
  import opened IpamModels
  import opened IpamClient
  import opened BlockClient
  import opened IdGrammar

  /** The resource's Terraform model; the handlers and `flattenBlock` write its fields. */
  class BlockResourceModel {
    var name: Value<string>
    var space: Value<string>
    var cidr: Value<string>

    /** The attributes hold the block's name and CIDR and the space it was stamped with. */
    ghost predicate Holds(b: SpacedBlock)
      reads this
    {
      name == Known(b.block.name) && space == Known(b.space) && cidr == Known(b.block.cidr)
    }

    /** `flattenBlock`: name, space and CIDR are copied from the block. */
    method Flatten(b: SpacedBlock)
      modifies this
      ensures Holds(b)
    {
      name := Known(b.block.name);
      space := Known(b.space);
      cidr := Known(b.block.cidr);
    }
  }

  /** `Create`: creates the block from the plan's space, name and CIDR and flattens the reply into the plan. */
  method Create(plan: BlockResourceModel, c: Client, answer: Result<Block>)
    returns (sent: seq<Request>, end: HandlerEnd)
    modifies plan
    ensures sent == CreateBlock(c, ValueString(old(plan.space)), ValueString(old(plan.name)), ValueString(old(plan.cidr)), answer).sent
    ensures answer.Err? ==>
              unchanged(plan)
              && end == Failed([Error("Error creating block", "Could not create block, unexpected error: " + answer.error)])
    ensures answer.Ok? ==>
              end == Saved && plan.Holds(SpacedBlock(ValueString(old(plan.space)), answer.value))
              && plan.space == Known(ValueString(old(plan.space)))
  {
    var created := CreateBlock(c, ValueString(plan.space), ValueString(plan.name), ValueString(plan.cidr), answer);
    sent := created.sent;
    if created.result.Err? {
      return sent, Failed([Error("Error creating block", "Could not create block, unexpected error: " + created.result.error)]);
    }
    plan.Flatten(created.result.value);
    return sent, Saved;
  }

  /** `Read`: reads the block named by the state, neither expanded nor with utilization, and flattens it. */
  method Read(state: BlockResourceModel, c: Client, answer: Result<Block>)
    returns (sent: seq<Request>, end: HandlerEnd)
    modifies state
    ensures sent == [GetBlockRequest(c, ValueString(old(state.space)), ValueString(old(state.name)), false, false)]
    ensures answer.Err? ==>
              unchanged(state)
              && end == Failed([Error("Error Reading AzureIpam Block",
                   "Could not read AzureIpam Block with name " + ValueString(old(state.name)) + ": " + answer.error)])
    ensures answer.Ok? ==> end == Saved && state.Holds(SpacedBlock(ValueString(old(state.space)), answer.value))
  {
    var read := GetBlock(c, ValueString(state.space), ValueString(state.name), false, false, answer);
    sent := read.sent;
    if read.result.Err? {
      return sent, Failed([Error("Error Reading AzureIpam Block",
                                 "Could not read AzureIpam Block with name " + ValueString(state.name) + ": " + read.result.error)]);
    }
    state.Flatten(read.result.value);
    return sent, Saved;
  }

  function UpdateError(e: string): Diagnostic {
    Error("Error updating block", "Could not update block, unexpected error: " + e)
  }

  /**
   * `Update`: patches the block named by the state's space and name with the plan's name and
   * CIDR, sent as pointers; the block read back under the new name is flattened into the plan.
   */
  method Update(state: BlockResourceModel, plan: BlockResourceModel, c: Client,
                patchReply: Result<string>, readBack: Result<Block>)
    returns (sent: seq<Request>, end: HandlerEnd)
    modifies plan
    ensures var newName, newCidr := ValueStringPointer(old(plan.name)), ValueStringPointer(old(plan.cidr));
            |sent| >= 1
            && sent[0] == Request(PATCH, BlockUrl(c, ValueString(old(state.space)), ValueString(old(state.name))),
                                  Some(PatchBody(BlockPatch(newName, newCidr))))
    ensures patchReply.Err? ==> end == Failed([UpdateError(";inner error: " + patchReply.error)]) && unchanged(plan)
    ensures patchReply.Ok? && old(plan.name).Null? ==> end == Crashed(NilDereference) && unchanged(plan)
    ensures var space := ValueString(old(state.space));
            patchReply.Ok? && !old(plan.name).Null? ==>
              sent[1..] == [GetBlockRequest(c, space, ValueString(old(plan.name)), false, false)]
              && (readBack.Err? ==> end == Failed([UpdateError(readBack.error)]) && unchanged(plan))
              && (readBack.Ok? ==> end == Saved && plan.Holds(SpacedBlock(space, readBack.value)))
  {
    var updated := UpdateBlock(c, ValueString(state.space), ValueString(state.name),
                               ValueStringPointer(plan.name), ValueStringPointer(plan.cidr), patchReply, readBack);
    sent := updated.sent;
    if updated.Panicked? {
      return sent, Crashed(updated.reason);
    }
    if updated.result.Err? {
      return sent, Failed([UpdateError(updated.result.error)]);
    }
    plan.Flatten(updated.result.value);
    return sent, Saved;
  }

  /** `Delete`: deletes the block named by the state, always forced; a failure is one error diagnostic. */
  method Delete(state: BlockResourceModel, c: Client, reply: Result<string>) returns (sent: seq<Request>, end: HandlerEnd)
    ensures sent == [Request(DELETE, BlockUrl(c, ValueString(state.space), ValueString(state.name)) + "?force=true", None)]
    ensures end == Saved <==> reply == Ok("")
    ensures end != Saved ==>
              end == Failed([Error("Error Deleting AzureIpam Block",
                "Could not delete block, unexpected error: " + EmptyBodyOrError(reply).error)])
  {
    var url := BlockUrl(c, ValueString(state.space), ValueString(state.name));
    assert url + "?force=" + BoolText(true) == url + "?force=true";
    var deleted := DeleteBlock(c, ValueString(state.space), ValueString(state.name), true, reply);
    sent := deleted.sent;
    if deleted.result.Err? {
      return sent, Failed([Error("Error Deleting AzureIpam Block",
                                 "Could not delete block, unexpected error: " + deleted.result.error)]);
    }
    return sent, Saved;
  }

  const ImportFormatError := Error("Error Importing AzureIpam Block",
    "The specified ID is not in the correct format {SpaceName}/{BlockName}.")

  /**
   * `ImportState`: an id of two alphanumeric segments, each possibly empty, joined by "/" sets
   * space and name to the segments in order; any other id is one error and sets nothing.
   */
  function ImportState(id: string): (r: Imported)
    ensures r.diagnostics == [] ==>
              exists space, name | AllAlnum(space) && AllAlnum(name) ::
                id == space + "/" + name && r.attributes == [("space", space), ("name", name)]
    ensures r.diagnostics != [] ==> r == Imported([ImportFormatError], [])
  {
    var first := Cut(id, '/');
    if first.2 && AllAlnum(first.0) && AllAlnum(first.1) then
      Imported([], [("space", first.0), ("name", first.1)])
    else
      Imported([ImportFormatError], [])
  }

  /** Every id of two alphanumeric segments is accepted, and gives back its segments. */
  lemma ImportStateAccepts(space: string, name: string)
    requires AllAlnum(space) && AllAlnum(name)
    ensures ImportState(space + "/" + name) == Imported([], [("space", space), ("name", name)])
  {
    AlnumHasNoSlash(space);
    CutAt(space, '/', name);
  }

  /** An id with a second "/" is rejected. */
  lemma ImportStateRejectsSecondSlash(space: string, name: string, rest: string)
    requires AllAlnum(space)
    ensures ImportState(space + "/" + name + "/" + rest).diagnostics == [ImportFormatError]
  {
    AlnumHasNoSlash(space);
    var tail := name + "/" + rest;
    assert space + "/" + name + "/" + rest == space + ['/'] + tail;
    CutAt(space, '/', tail);
    assert !IsAlnum(tail[|name|]);
  }

  /** The import id used by the acceptance test. */
  lemma ImportStateExample()
    ensures ImportState("au/AustraliaNorth") == Imported([], [("space", "au"), ("name", "AustraliaNorth")])
  {
    assert "au/AustraliaNorth" == "au" + "/" + "AustraliaNorth";
    ImportStateAccepts("au", "AustraliaNorth");
  }
}
