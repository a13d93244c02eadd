/**
 * The reservation resource for an explicitly requested CIDR
 * (internal/provider/reservation_resource_cidr.go).
 *
 * Create calls a seven-argument `CreateReservation`, and Read calls `FindReservationById`;
 * neither is part of this model. Create records the arguments of its call and takes the
 * answer as a parameter; Read returns the id it looks up and takes the answer likewise.
 */
module ReservationCidrResource {
  import opened Wrappers
  import opened Tf
  import opened IpamModels
  import opened IpamClient
  import opened ReservationClient
  import opened ReservationResource

  /** The resource's Terraform model; the handlers and `flattenReservationCidr` write its fields. */
  class ReservationCidrResourceModel {
    var space: Value<string>
    var block: Value<string>
    var specificCidr: Value<string>
    var description: Value<string>
    var id: Value<string>
    var cidr: Value<string>
    var createdBy: Value<string>
    var createdOn: Value<Timestamp>
    var settledBy: Value<string>
    var settledOn: Value<Timestamp>
    var status: Value<string>
    var tags: Value<map<string, string>>

    /**
     * The attributes `flattenReservationCidr` takes from a reservation: the assigned CIDR is
     * also taken as the requested one, and the settlement fields are null exactly when the
     * reservation has none.
     */
    ghost predicate Holds(r: Reservation)
      reads this`id, this`space, this`block, this`cidr, this`description, this`specificCidr
      reads this`createdOn, this`createdBy, this`settledOn, this`settledBy, this`status
    {
      id == Known(r.id) && space == Known(r.space) && block == Known(r.block)
      && specificCidr == Known(r.cidr) && cidr == Known(r.cidr) && description == Known(r.description)
      && createdOn == Known(UnixTime(r.createdOn)) && createdBy == Known(r.createdBy)
      && settledOn == TimeValue(r.settledOn) && settledBy == FromPointer(r.settledBy)
      && status == Known(r.status)
    }

    /** `flattenReservationCidr`: the tags are left as they were. */
    method Flatten(r: Reservation)
      modifies this`id, this`space, this`block, this`specificCidr, this`cidr, this`description
      modifies this`createdOn, this`createdBy, this`settledOn, this`settledBy, this`status
      ensures Holds(r)
    {
      id := Known(r.id);
      space := Known(r.space);
      block := Known(r.block);
      specificCidr := Known(r.cidr);
      cidr := Known(r.cidr);
      description := Known(r.description);
      createdOn := Known(UnixTime(r.createdOn));
      createdBy := Known(r.createdBy);
      var settledOnValue: Value<Timestamp> := Null;
      if r.settledOn.Some? {
        settledOnValue := Known(UnixTime(r.settledOn.value));
      }
      var settledByValue: Value<string> := Null;
      if r.settledBy.Some? {
        settledByValue := Known(r.settledBy.value);
      }
      settledOn := settledOnValue;
      settledBy := settledByValue;
      status := Known(r.status);
    }
  }

  /** The arguments of the seven-argument `CreateReservation` call. */
  datatype CreateReservationCall = CreateReservationCall(
    space: string,
    blocks: seq<string>,
    description: Option<string>,
    size: Option<int>,
    specificCidr: Option<string>,
    reverseSearch: bool,
    smallestCidr: bool)

  /**
   * The call `Create` makes: the plan's space, a one-element block list, the description and
   * the requested CIDR as pointers (nil when null), no size, and no search preferences.
   */
  function CreateCall(space: Value<string>, block: Value<string>, description: Value<string>,
                      specificCidr: Value<string>): (call: CreateReservationCall)
    ensures call.space == ValueString(space) && call.blocks == [ValueString(block)]
    ensures call.size.None? && !call.reverseSearch && !call.smallestCidr
    ensures call.specificCidr.None? <==> specificCidr.Null?
    ensures specificCidr.Known? ==> call.specificCidr == Some(specificCidr.value)
    ensures call.description.None? <==> description.Null?
    ensures description.Known? ==> call.description == Some(description.value)
  {
    CreateReservationCall(ValueString(space), [ValueString(block)], ValueStringPointer(description), None,
                          ValueStringPointer(specificCidr), false, false)
  }

  /**
   * `Create`: makes the call above; on success the reply is flattened into the plan, with its
   * tags, and saved; a failure is one error diagnostic and no state.
   */
  method Create(plan: ReservationCidrResourceModel, answer: Result<Reservation>)
    returns (call: CreateReservationCall, end: HandlerEnd)
    modifies plan
    ensures call == CreateCall(old(plan.space), old(plan.block), old(plan.description), old(plan.specificCidr))
    ensures answer.Err? ==>
              unchanged(plan)
              && end == CreateFailed(answer.error)
    ensures answer.Ok? ==> end == Saved && plan.Holds(answer.value) && plan.tags == Known(answer.value.tags)
  {
    var blocks := [ValueString(plan.block)];
    call := CreateReservationCall(ValueString(plan.space), blocks, ValueStringPointer(plan.description), None,
                                  ValueStringPointer(plan.specificCidr), false, false);
    if answer.Err? {
      return call, CreateFailed(answer.error);
    }
    var reservation := answer.value;
    plan.Flatten(reservation);
    plan.tags := Known(reservation.tags);
    return call, Saved;
  }

  /** `Read`: looks the reservation up by the state's id and flattens it, with its tags, into the state. */
  method Read(state: ReservationCidrResourceModel, found: Result<Reservation>) returns (lookedUp: string, end: HandlerEnd)
    modifies state
    ensures lookedUp == ValueString(old(state.id))
    ensures found.Err? ==>
              unchanged(state) && end == ReadFailed(lookedUp, found.error)
    ensures found.Ok? ==> end == Saved && state.Holds(found.value) && state.tags == Known(found.value.tags)
  {
    lookedUp := ValueString(state.id);
    if found.Err? {
      return lookedUp, ReadFailed(lookedUp, found.error);
    }
    state.Flatten(found.value);
    state.tags := Known(found.value.tags);
    return lookedUp, Saved;
  }

  /** `Delete`: deletes by the space, block and id held in the state; a failure is one error diagnostic. */
  method Delete(state: ReservationCidrResourceModel, c: Client, reply: Result<string>) returns (sent: seq<Request>, end: HandlerEnd)
    ensures sent == [Request(DELETE, ReservationsUrl(c, ValueString(state.space), ValueString(state.block)),
                             Some(IdListBody(ValueString(state.id))))]
    ensures end == Saved <==> reply == Ok("")
    ensures end != Saved ==>
              end == Failed([Error("Error Deleting AzureIpam Reservation",
                "Could not delete reservation, unexpected error: " + EmptyBodyOrError(reply).error)])
  {
    var deleted := DeleteReservation(c, ValueString(state.space), ValueString(state.block), ValueString(state.id), reply);
    sent := deleted.sent;
    if deleted.result.Err? {
      return sent, Failed([Error("Error Deleting AzureIpam Reservation",
                                 "Could not delete reservation, unexpected error: " + deleted.result.error)]);
    }
    return sent, Saved;
  }
}
