/**
 * The block network resource (internal/provider/block_network_resource.go): the association
 * of an Azure virtual network with a block. Its import id is "{space}/{block}/{resource id}",
 * where the resource id is the network's full Azure resource id.
 */
module BlockNetworkResource {
  import opened Wrappers
  import opened GoText
  import opened Tf
  import opened IpamClient
  import opened BlockNetworkClient
  import opened IdGrammar

  /** Whether a network carries the three optional fields `flattenBlockNetwork` dereferences. */
  predicate Complete(n: BlockNetworkInfo) {
    n.resourceGroup.Some? && n.subscriptionId.Some? && n.tenantId.Some?
  }

  /** The resource's Terraform model; the handlers and `flattenBlockNetwork` write its fields. */
  class BlockNetworkResourceModel {
    var space: Value<string>
    var block: Value<string>
    var id: Value<string>
    var name: Value<string>
    var prefixes: Value<seq<string>>
    var resourceGroup: Value<string>
    var subscriptionId: Value<string>
    var tenantId: Value<string>

    /** The network's attributes as `flattenBlockNetwork` writes them; space and block are not among them. */
    ghost predicate Holds(n: BlockNetworkInfo)
      reads this
    {
      id == Known(n.id) && name == Known(n.name) && prefixes == Known(n.prefixes)
      && resourceGroup == FromPointer(n.resourceGroup) && subscriptionId == FromPointer(n.subscriptionId)
      && tenantId == FromPointer(n.tenantId)
    }

    /**
     * `flattenBlockNetwork`: copies id, name and prefixes, then dereferences the resource
     * group, subscription id and tenant id in that order; a nil one panics.
     */
    method Flatten(n: BlockNetworkInfo) returns (crash: Option<string>)
      modifies this
      ensures crash.None? <==> Complete(n)
      ensures crash.Some? ==> crash.value == NilDereference
      ensures crash.None? ==> Holds(n)
      ensures space == old(space) && block == old(block)
    {
      id := Known(n.id);
      name := Known(n.name);
      prefixes := Known(n.prefixes);
      if n.resourceGroup.None? {
        return Some(NilDereference);
      }
      resourceGroup := Known(n.resourceGroup.value);
      if n.subscriptionId.None? {
        return Some(NilDereference);
      }
      subscriptionId := Known(n.subscriptionId.value);
      if n.tenantId.None? {
        return Some(NilDereference);
      }
      tenantId := Known(n.tenantId.value);
      return None;
    }
  }

  function CreateError(e: string): Diagnostic {
    Error("Error creating block network", "Could not create block network, unexpected error: " + e)
  }

  function ReadError(id: string, e: string): Diagnostic {
    Error("Error Reading AzureIpam block network", "Could not read AzureIpam block network with id " + id + ": " + e)
  }

  /**
   * `Create`: associates the plan's network id with the plan's space and block; the network the
   * client reads back is flattened into the plan. `created` and `listed` answer the client's
   * POST and its read-back.
   */
  method Create(plan: BlockNetworkResourceModel, c: Client, created: Result<()>, listed: Result<seq<BlockNetworkInfo>>)
    returns (sent: seq<Request>, end: HandlerEnd)
    modifies plan
    ensures var space, block, id := ValueString(old(plan.space)), ValueString(old(plan.block)), ValueString(old(plan.id));
            |sent| >= 1 && sent[0] == Request(POST, NetworksUrl(c, space, block), Some(BlockNetworkRequestBody(id)))
            && (created.Ok? ==> sent[1..] == [GetBlockNetworksInfoRequest(c, space, block, true)])
    ensures created.Err? ==> end == Failed([CreateError(created.error)]) && unchanged(plan)
    ensures created.Ok? && listed.Err? ==> end == Failed([CreateError(listed.error)]) && unchanged(plan)
    ensures created.Ok? && listed.Ok? ==> match LastWithId(listed.value, ValueString(old(plan.id)))
      case None => end == Failed([CreateError("invalid block network id")]) && unchanged(plan)
      case Some(k) =>
        (Complete(listed.value[k]) ==> end == Saved && plan.Holds(listed.value[k]))
        && (!Complete(listed.value[k]) ==> end == Crashed(NilDereference))
    ensures end == Saved ==> plan.space == old(plan.space) && plan.block == old(plan.block)
  {
    var o := CreateBlockNetwork(c, ValueString(plan.space), ValueString(plan.block), ValueString(plan.id), created, listed);
    sent := o.sent;
    if o.result.Err? {
      return sent, Failed([CreateError(o.result.error)]);
    }
    var crash := plan.Flatten(o.result.value);
    if crash.Some? {
      return sent, Crashed(crash.value);
    }
    return sent, Saved;
  }

  /** `Read`: looks the state's network up in its block, expanded, and flattens it into the state. */
  method Read(state: BlockNetworkResourceModel, c: Client, answer: Result<seq<BlockNetworkInfo>>)
    returns (sent: seq<Request>, end: HandlerEnd)
    modifies state
    ensures sent == [GetBlockNetworksInfoRequest(c, ValueString(old(state.space)), ValueString(old(state.block)), true)]
    ensures answer.Err? ==> end == Failed([ReadError(ValueString(old(state.id)), answer.error)]) && unchanged(state)
    ensures answer.Ok? ==> match LastWithId(answer.value, ValueString(old(state.id)))
      case None => end == Failed([ReadError(ValueString(old(state.id)), "invalid block network id")]) && unchanged(state)
      case Some(k) =>
        (Complete(answer.value[k]) ==> end == Saved && state.Holds(answer.value[k]))
        && (!Complete(answer.value[k]) ==> end == Crashed(NilDereference))
  {
    var id := ValueString(state.id);
    var o := GetBlockNetworkInfo(c, ValueString(state.space), ValueString(state.block), id, true, answer);
    sent := o.sent;
    if o.result.Err? {
      return sent, Failed([ReadError(id, o.result.error)]);
    }
    var crash := state.Flatten(o.result.value);
    if crash.Some? {
      return sent, Crashed(crash.value);
    }
    return sent, Saved;
  }

  /** `Update`: nothing is sent; the plan becomes the state as it is. */
  method Update(state: BlockNetworkResourceModel, plan: BlockNetworkResourceModel) returns (end: HandlerEnd)
    modifies state
    ensures end == Saved
    ensures state.space == old(plan.space) && state.block == old(plan.block) && state.id == old(plan.id)
    ensures state.name == old(plan.name) && state.prefixes == old(plan.prefixes)
    ensures state.resourceGroup == old(plan.resourceGroup) && state.subscriptionId == old(plan.subscriptionId)
    ensures state.tenantId == old(plan.tenantId)
  {
    var space, block, id, name := plan.space, plan.block, plan.id, plan.name;
    var prefixes, resourceGroup, subscriptionId, tenantId := plan.prefixes, plan.resourceGroup, plan.subscriptionId, plan.tenantId;
    state.space, state.block, state.id, state.name := space, block, id, name;
    state.prefixes, state.resourceGroup, state.subscriptionId, state.tenantId := prefixes, resourceGroup, subscriptionId, tenantId;
    return Saved;
  }

  /** `Delete`: removes the state's network from its block; a failure is one error diagnostic. */
  method Delete(state: BlockNetworkResourceModel, c: Client, reply: Result<string>) returns (sent: seq<Request>, end: HandlerEnd)
    ensures sent == DeleteBlockNetwork(c, ValueString(state.space), ValueString(state.block), ValueString(state.id), reply).sent
    ensures end == Saved <==> reply == Ok("")
    ensures end != Saved ==>
              end == Failed([Error("Error Deleting AzureIpam block network",
                "Could not delete block network, unexpected error: " + EmptyBodyOrError(reply).error)])
  {
    var deleted := DeleteBlockNetwork(c, ValueString(state.space), ValueString(state.block), ValueString(state.id), reply);
    sent := deleted.sent;
    if deleted.result.Err? {
      return sent, Failed([Error("Error Deleting AzureIpam block network",
                                 "Could not delete block network, unexpected error: " + deleted.result.error)]);
    }
    return sent, Saved;
  }

  const ImportFormatError := Error("Error Importing AzureIpam block network",
    "The specified ID is not in the correct format {SpaceName}/{BlockName}/{AzureResourceIdOfNetwork}.")

  /**
   * The id cut at its first two "/": what precedes the first, what lies between the two, and
   * the rest after the second; nothing when there are fewer than two.
   */
  function CutTwice(id: string): (parts: Option<(string, string, string)>)
    ensures parts.Some? ==> id == parts.value.0 + "/" + parts.value.1 + "/" + parts.value.2
    ensures parts.Some? ==> '/' !in parts.value.0 && '/' !in parts.value.1
  {
    var first := Cut(id, '/');
    var second := Cut(first.1, '/');
    if first.2 && second.2 then Some((first.0, second.0, second.1)) else None
  }

  /**
   * `ImportState`: two alphanumeric segments, each followed by "/", and then an Azure resource
   * id. Space and block are the segments, and the id attribute is the whole resource id, with
   * its leading "/"; any other id is one error and sets nothing.
   */
  function ImportState(id: string): (r: Imported)
    ensures r.diagnostics == [] ==>
              |r.attributes| == 3
              && r.attributes[0].0 == "space" && r.attributes[1].0 == "block" && r.attributes[2].0 == "id"
              && id == r.attributes[0].1 + "/" + r.attributes[1].1 + "/" + r.attributes[2].1
    ensures r.diagnostics != [] ==> r == Imported([ImportFormatError], [])
  {
    var parts := CutTwice(id);
    if parts.Some? && AllAlnum(parts.value.0) && AllAlnum(parts.value.1) && AzureResourceIdTail(parts.value.2) then
      Imported([], [("space", parts.value.0), ("block", parts.value.1), ("id", parts.value.2)])
    else
      Imported([ImportFormatError], [])
  }

  /** What an accepted id is made of: two alphanumeric segments and an accepted resource id. */
  lemma ImportStateSound(id: string)
    requires ImportState(id).diagnostics == []
    ensures var attributes := ImportState(id).attributes;
            AllAlnum(attributes[0].1) && AllAlnum(attributes[1].1) && AzureResourceIdTail(attributes[2].1)
  {
    var parts := CutTwice(id);
    assert parts.Some? && AllAlnum(parts.value.0) && AllAlnum(parts.value.1) && AzureResourceIdTail(parts.value.2);
  }

  /** Two alphanumeric segments followed by an accepted resource id are accepted, and given back. */
  lemma ImportStateAcceptsTail(space: string, block: string, resourceId: string)
    requires AllAlnum(space) && AllAlnum(block) && AzureResourceIdTail(resourceId)
    ensures ImportState(space + "/" + block + "/" + resourceId)
            == Imported([], [("space", space), ("block", block), ("id", resourceId)])
  {
    AlnumHasNoSlash(space);
    AlnumHasNoSlash(block);
    var id := space + "/" + block + "/" + resourceId;
    var afterSpace := block + ['/'] + resourceId;
    assert id == space + ['/'] + afterSpace;
    CutAt(space, '/', afterSpace);
    CutAt(block, '/', resourceId);
    assert Cut(id, '/') == (space, afterSpace, true);
    assert Cut(Cut(id, '/').1, '/') == (block, resourceId, true);
    assert CutTwice(id) == Some((space, block, resourceId));
  }

  /** Every space, block and resource id with newline-free parts is accepted, and given back. */
  lemma ImportStateAccepts(space: string, block: string, gaps: seq<string>)
    requires AllAlnum(space) && AllAlnum(block)
    requires |gaps| == 5 && NoNewline(gaps)
    ensures ImportState(space + "/" + block + "/" + AzureResourceId(gaps))
            == Imported([], [("space", space), ("block", block), ("id", AzureResourceId(gaps))])
  {
    AzureResourceIdAccepted(gaps);
    ImportStateAcceptsTail(space, block, AzureResourceId(gaps));
  }
}
