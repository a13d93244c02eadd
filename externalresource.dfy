/**
 * The external network resource (internal/provider/external_resource.go): its handlers route
 * the plan and state attributes to the client's external network operations, and its import
 * id is "{space}/{block}/{name}".
 */
module ExternalResource {
  import opened Wrappers
  import opened GoText
  import opened Tf
  import opened IpamModels
  import opened IpamClient
  import opened ExternalClient
  import opened IdGrammar

  /** The resource's Terraform model; the handlers and `flattenExternal` write its fields. */
  class ExternalResourceModel {
    var space: Value<string>
    var block: Value<string>
    var name: Value<string>
    var description: Value<string>
    var cidr: Value<string>

    /** Every attribute holds the corresponding field of the external network. */
    ghost predicate Holds(n: ExternalNetwork)
      reads this
    {
      space == Known(n.space) && block == Known(n.block) && name == Known(n.name)
      && description == Known(n.description) && cidr == Known(n.cidr)
    }

    /** `flattenExternal`: all five attributes are copied from the network. */
    method Flatten(n: ExternalNetwork)
      modifies this
      ensures Holds(n)
    {
      space := Known(n.space);
      block := Known(n.block);
      name := Known(n.name);
      description := Known(n.description);
      cidr := Known(n.cidr);
    }
  }

  function CreateError(e: string): Diagnostic {
    Error("Error creating external network", "Could not create external network, unexpected error: " + e)
  }

  function UpdateError(e: string): Diagnostic {
    Error("Error updating external network", "Could not update external network, unexpected error: " + e)
  }

  /**
   * `Create`: creates the network with the plan's space, block, name, description and CIDR and
   * flattens the network the client returns into the plan. The saved space, block and name are
   * the planned ones.
   */
  method Create(plan: ExternalResourceModel, c: Client, answer: Result<seq<External>>)
    returns (sent: seq<Request>, end: HandlerEnd)
    modifies plan
    ensures var o := CreateExternal(c, ValueString(old(plan.space)), ValueString(old(plan.block)), ValueString(old(plan.name)),
                                    ValueString(old(plan.description)), ValueString(old(plan.cidr)), answer);
            sent == o.sent
            && (o.Panicked? ==> end == Crashed(o.reason) && unchanged(plan))
            && (o.Returned? && o.result.Err? ==> end == Failed([CreateError(o.result.error)]) && unchanged(plan))
            && (o.Returned? && o.result.Ok? ==> end == Saved && plan.Holds(o.result.value))
    ensures end == Saved ==>
              plan.space == Known(ValueString(old(plan.space))) && plan.block == Known(ValueString(old(plan.block)))
              && plan.name == Known(ValueString(old(plan.name)))
  {
    var created := CreateExternal(c, ValueString(plan.space), ValueString(plan.block), ValueString(plan.name),
                                  ValueString(plan.description), ValueString(plan.cidr), answer);
    sent := created.sent;
    if created.Panicked? {
      return sent, Crashed(created.reason);
    }
    if created.result.Err? {
      return sent, Failed([CreateError(created.result.error)]);
    }
    plan.Flatten(created.result.value);
    return sent, Saved;
  }

  /**
   * `Read`: reads the network named by the state and flattens it into the state; space and
   * block stay the ones the state held.
   */
  method Read(state: ExternalResourceModel, c: Client, answer: Result<External>)
    returns (sent: seq<Request>, end: HandlerEnd)
    modifies state
    ensures sent == [GetExternalRequest(c, ValueString(old(state.space)), ValueString(old(state.block)), ValueString(old(state.name)))]
    ensures answer.Err? ==>
              unchanged(state)
              && end == Failed([Error("Error Reading AzureIpam external network",
                   "Could not read AzureIpam external  network with name " + ValueString(old(state.name)) + ": " + answer.error)])
    ensures answer.Ok? ==>
              end == Saved && state.Holds(WithLocation(ValueString(old(state.space)), ValueString(old(state.block)), answer.value))
  {
    var read := GetExternal(c, ValueString(state.space), ValueString(state.block), ValueString(state.name), answer);
    sent := read.sent;
    if read.result.Err? {
      return sent, Failed([Error("Error Reading AzureIpam external network",
                                 "Could not read AzureIpam external  network with name " + ValueString(state.name) + ": " + read.result.error)]);
    }
    state.Flatten(read.result.value);
    return sent, Saved;
  }

  /**
   * `Update`: addresses the network by the space, block and name held in the state and sends
   * the plan's name, description and CIDR as pointers. On success the network read back under
   * its new name is flattened into the plan, with the state's space and block.
   */
  method Update(state: ExternalResourceModel, plan: ExternalResourceModel, c: Client,
                listed: Result<seq<External>>, putReply: Result<string>, readBack: Result<External>)
    returns (sent: seq<Request>, end: HandlerEnd)
    modifies plan
    ensures var space, block := ValueString(old(state.space)), ValueString(old(state.block));
            |sent| >= 1 && sent[0] == GetExternalsInfoRequest(c, space, block)
    ensures listed.Err? ==> end == Failed([UpdateError(listed.error)]) && unchanged(plan)
    ensures var newName, newDescription, newCidr :=
              ValueStringPointer(old(plan.name)), ValueStringPointer(old(plan.description)), ValueStringPointer(old(plan.cidr));
            listed.Ok? && HasName(listed.value, ValueString(old(state.name)))
            && (newName.None? || newDescription.None? || newCidr.None?) ==>
              end == Crashed(NilDereference) && unchanged(plan)
    ensures var space, block, name := ValueString(old(state.space)), ValueString(old(state.block)), ValueString(old(state.name));
            var newName, newDescription, newCidr :=
              ValueStringPointer(old(plan.name)), ValueStringPointer(old(plan.description)), ValueStringPointer(old(plan.cidr));
            listed.Ok? && (!HasName(listed.value, name) || (newName.Some? && newDescription.Some? && newCidr.Some?)) ==>
              |sent| >= 2
              && sent[1] == PutExternalsRequest(c, space, block,
                   Rewritten(listed.value, name, External(newName.GetOr(""), newDescription.GetOr(""), newCidr.GetOr(""))))
              && (putReply.Err? ==> end == Failed([UpdateError(";inner error: " + putReply.error)]) && unchanged(plan))
              && (putReply.Ok? && newName.None? ==> end == Crashed(NilDereference) && unchanged(plan))
              && (putReply.Ok? && newName.Some? ==>
                    sent[2..] == [GetExternalRequest(c, space, block, newName.value)]
                    && (readBack.Err? ==> end == Failed([UpdateError(readBack.error)]) && unchanged(plan))
                    && (readBack.Ok? ==> end == Saved && plan.Holds(WithLocation(space, block, readBack.value))))
  {
    var updated := UpdateExternal(c, ValueString(state.space), ValueString(state.block), ValueString(state.name),
                                  ValueStringPointer(plan.name), ValueStringPointer(plan.description),
                                  ValueStringPointer(plan.cidr), listed, putReply, readBack);
    sent := updated.sent;
    if updated.Panicked? {
      return sent, Crashed(updated.reason);
    }
    if updated.result.Err? {
      return sent, Failed([UpdateError(updated.result.error)]);
    }
    plan.Flatten(updated.result.value);
    return sent, Saved;
  }

  /** `Delete`: deletes the network named by the state; a failure is one error diagnostic. */
  method Delete(state: ExternalResourceModel, c: Client, reply: Result<string>) returns (sent: seq<Request>, end: HandlerEnd)
    ensures sent == DeleteExternal(c, ValueString(state.space), ValueString(state.block), ValueString(state.name), reply).sent
    ensures end == Saved <==> reply == Ok("")
    ensures end != Saved ==>
              end == Failed([Error("Error Deleting AzureIpam external network",
                "Could not delete external network, unexpected error: " + EmptyBodyOrError(reply).error)])
  {
    var deleted := DeleteExternal(c, ValueString(state.space), ValueString(state.block), ValueString(state.name), reply);
    sent := deleted.sent;
    if deleted.result.Err? {
      return sent, Failed([Error("Error Deleting AzureIpam external network",
                                 "Could not delete external network, unexpected error: " + deleted.result.error)]);
    }
    return sent, Saved;
  }

  const ImportFormatError := Error("Error Importing AzureIpam external network",
    "The specified ID is not in the correct format {SpaceName}/{BlockName}/{ExternalNetworkName}.")

  /**
   * `ImportState`: an id of three alphanumeric segments, each possibly empty, joined by "/"
   * sets space, block and name to the segments in order; any other id is one error and sets
   * nothing.
   */
  function ImportState(id: string): (r: Imported)
    ensures r.diagnostics == [] ==>
              exists space, block, name | AllAlnum(space) && AllAlnum(block) && AllAlnum(name) ::
                id == space + "/" + block + "/" + name
                && r.attributes == [("space", space), ("block", block), ("name", name)]
    ensures r.diagnostics != [] ==> r == Imported([ImportFormatError], [])
  {
    var first := Cut(id, '/');
    var second := Cut(first.1, '/');
    if first.2 && second.2 && AllAlnum(first.0) && AllAlnum(second.0) && AllAlnum(second.1) then
      assert id == first.0 + "/" + second.0 + "/" + second.1;
      Imported([], [("space", first.0), ("block", second.0), ("name", second.1)])
    else
      Imported([ImportFormatError], [])
  }

  /** Every id of three alphanumeric segments is accepted, and gives back its segments. */
  lemma ImportStateAccepts(space: string, block: string, name: string)
    requires AllAlnum(space) && AllAlnum(block) && AllAlnum(name)
    ensures ImportState(space + "/" + block + "/" + name)
            == Imported([], [("space", space), ("block", block), ("name", name)])
  {
    AlnumHasNoSlash(space);
    AlnumHasNoSlash(block);
    assert space + "/" + block + "/" + name == space + ['/'] + (block + ['/'] + name);
    CutAt(space, '/', block + ['/'] + name);
    CutAt(block, '/', name);
  }
}
