/**
 * The size-based reservation resource (internal/provider/reservation_resource.go).
 *
 * Read looks the reservation up with `FindReservationById`, which is not part of this
 * model: its answer is a parameter, and the id it is asked for is returned.
 */
module ReservationResource {
  import opened Wrappers
  import opened GoText
  import opened Tf
  import opened IpamModels
  import opened IpamClient
  import opened ReservationClient

  /** The resource's Terraform model; the handlers and `flattenReservation` write its fields. */
  class ReservationResourceModel {
    var space: Value<string>
    var block: Value<string>
    var size: Value<int>
    var description: Value<string>
    var reverseSearch: Value<bool>
    var smallestCidr: Value<bool>
    var id: Value<string>
    var cidr: Value<string>
    var createdBy: Value<string>
    var createdOn: Value<Timestamp>
    var settledBy: Value<string>
    var settledOn: Value<Timestamp>
    var status: Value<string>
    var tags: Value<map<string, string>>

    /**
     * The attributes `flattenReservation` takes from a reservation: the strings verbatim, the
     * creation time truncated to whole seconds, and the settlement fields null exactly when
     * the reservation has none.
     */
    ghost predicate Holds(r: Reservation)
      reads this`id, this`space, this`block, this`cidr, this`description
      reads this`createdOn, this`createdBy, this`settledOn, this`settledBy, this`status
    {
      id == Known(r.id) && space == Known(r.space) && block == Known(r.block)
      && cidr == Known(r.cidr) && description == Known(r.description)
      && createdOn == Known(UnixTime(r.createdOn)) && createdBy == Known(r.createdBy)
      && settledOn == TimeValue(r.settledOn) && settledBy == FromPointer(r.settledBy)
      && status == Known(r.status)
    }

    /** `flattenReservation`: size, the two request flags and the tags are left as they were. */
    method Flatten(r: Reservation)
      modifies this`id, this`space, this`block, this`cidr, this`description
      modifies this`createdOn, this`createdBy, this`settledOn, this`settledBy, this`status
      ensures Holds(r)
    {
      id := Known(r.id);
      space := Known(r.space);
      block := Known(r.block);
      cidr := Known(r.cidr);
      description := Known(r.description);
      createdOn := Known(UnixTime(r.createdOn));
      createdBy := Known(r.createdBy);
      var settledOnValue: Value<Timestamp> := Null;
      if r.settledOn.Some? {
        settledOnValue := Known(UnixTime(r.settledOn.value));
      }
      var settledByValue: Value<string> := Null;
      if r.settledBy.Some? {
        settledByValue := Known(r.settledBy.value);
      }
      settledOn := settledOnValue;
      settledBy := settledByValue;
      status := Known(r.status);
    }
  }

  /** How the prefix length is read back from a CIDR. */
  datatype SizeParse =
    | MissingSlash               // `strings.Split(cidr, "/")[1]` is out of range: a panic
    | NotANumber(error: string)  // `strconv.Atoi` rejected the second piece
    | Size(value: int)           // the piece as a number, converted to int32

  const IndexOneOutOfRange := "runtime error: index out of range [1] with length 1"

  /**
   * The requested size of a reservation recovered from its CIDR: the second "/"-separated
   * piece read as a decimal integer and converted to int32.
   */
  function CidrSize(cidr: string): (r: SizeParse)
    ensures r.MissingSlash? <==> '/' !in cidr
    ensures r.Size? ==> -0x8000_0000 <= r.value < 0x8000_0000
  {
    var parts := Split(cidr, '/');
    SplitHasSecond(cidr, '/');
    if |parts| < 2 then MissingSlash
    else match Atoi(parts[1])
      case Err(e) => NotANumber(e)
      case Ok(n) => Size(Int32(n))
  }

  /** An address followed by "/" and a prefix length that fits in 32 bits yields that length. */
  lemma CidrSizeOfPrefix(address: string, n: nat)
    requires '/' !in address
    requires n < 0x8000_0000
    ensures CidrSize(address + "/" + NatText(n)) == Size(n)
  {
    var digits := NatText(n);
    assert forall k :: 0 <= k < |digits| ==> digits[k] != '/';
    SplitCons(address, '/', digits);
    SplitSingle(digits, '/');
    assert Split(address + "/" + digits, '/') == [address, digits];
    AtoiNatText(n);
    Int32Fits(n);
  }

  /** The case in the acceptance test: a /23 reservation reads back size 23. */
  lemma CidrSizeExample()
    ensures CidrSize("10.82.6.0/23") == Size(23)
  {
    assert NatText(23) == "23";
    assert "10.82.6.0/23" == "10.82.6.0" + "/" + NatText(23);
    CidrSizeOfPrefix("10.82.6.0", 23);
  }

  /** The diagnostic of a failed create. */
  function CreateFailed(error: string): HandlerEnd {
    Failed([Error("Error creating reservation", "Could not create reservation, unexpected error: " + error)])
  }

  /** The diagnostic of a failed lookup of the reservation with the given id. */
  function ReadFailed(id: string, error: string): HandlerEnd {
    Failed([Error("Error Reading AzureIpam Reservation", "Could not read AzureIpam Reservation with id " + id + ": " + error)])
  }

  /** The diagnostic of a CIDR whose prefix length is not a number. */
  function SizeFailed(id: string, error: string): HandlerEnd {
    Failed([Error("Error Reading AzureIpam Reservation",
                  "Could not determinate requested size for Reservation with id " + id + ": " + error)])
  }

  /**
   * `Create`: forwards space, block, description, size and the two search flags from the plan
   * to `CreateReservation`, in that order. On success the reply is flattened into the plan,
   * with its tags, and saved; a failure is one error diagnostic and no state.
   */
  method Create(plan: ReservationResourceModel, c: Client, answer: Result<Reservation>)
    returns (sent: seq<Request>, end: HandlerEnd)
    modifies plan
    ensures sent == [Request(POST, ReservationsUrl(c, ValueString(old(plan.space)), ValueString(old(plan.block))),
                             Some(EncodeReservationRequest(ReservationRequest(
                               ValueInt32(old(plan.size)), ValueString(old(plan.description)),
                               ValueBool(old(plan.reverseSearch)), ValueBool(old(plan.smallestCidr))))))]
    ensures answer.Err? ==>
              unchanged(plan)
              && end == CreateFailed(answer.error)
    ensures answer.Ok? ==>
              end == Saved && plan.Holds(answer.value) && plan.tags == Known(answer.value.tags)
              && plan.size == old(plan.size) && plan.reverseSearch == old(plan.reverseSearch)
              && plan.smallestCidr == old(plan.smallestCidr)
  {
    var created := CreateReservation(c, ValueString(plan.space), ValueString(plan.block), ValueString(plan.description),
                                     ValueInt32(plan.size), ValueBool(plan.reverseSearch), ValueBool(plan.smallestCidr), answer);
    sent := created.sent;
    if created.result.Err? {
      return sent, CreateFailed(created.result.error);
    }
    var reservation := created.result.value;
    plan.Flatten(reservation);
    plan.tags := Known(reservation.tags);
    return sent, Saved;
  }

  /**
   * `Read`: looks the reservation up by the state's id and flattens it, with its tags, into the
   * state; the size is then recovered from the CIDR. A CIDR without "/" panics; a second piece
   * that is not a number is an error naming the reservation's id.
   */
  method Read(state: ReservationResourceModel, found: Result<Reservation>) returns (lookedUp: string, end: HandlerEnd)
    modifies state
    ensures lookedUp == ValueString(old(state.id))
    ensures found.Err? ==>
              unchanged(state) && end == ReadFailed(lookedUp, found.error)
    ensures found.Ok? ==> state.Holds(found.value) && state.tags == Known(found.value.tags)
    ensures found.Ok? ==> match CidrSize(found.value.cidr)
      case MissingSlash => end == Crashed(IndexOneOutOfRange)
      case NotANumber(e) => end == SizeFailed(found.value.id, e)
      case Size(n) => end == Saved && state.size == Known(n)
  {
    lookedUp := ValueString(state.id);
    if found.Err? {
      return lookedUp, ReadFailed(lookedUp, found.error);
    }
    var reservation := found.value;
    state.Flatten(reservation);
    state.tags := Known(reservation.tags);
    match CidrSize(reservation.cidr)
    case MissingSlash =>
      return lookedUp, Crashed(IndexOneOutOfRange);
    case NotANumber(e) =>
      state.size := Known(Int32(0));
      return lookedUp, SizeFailed(ValueString(state.id), e);
    case Size(n) =>
      state.size := Known(n);
      return lookedUp, Saved;
  }

  /** `Delete`: deletes by the space, block and id held in the state; a failure is one error diagnostic. */
  method Delete(state: ReservationResourceModel, c: Client, reply: Result<string>) returns (sent: seq<Request>, end: HandlerEnd)
    ensures sent == [Request(DELETE, ReservationsUrl(c, ValueString(state.space), ValueString(state.block)),
                             Some(IdListBody(ValueString(state.id))))]
    ensures end == Saved <==> reply == Ok("")
    ensures end != Saved ==>
              end == Failed([Error("Error Deleting AzureIpam Reservation",
                "Could not delete reservation, unexpected error: " + EmptyBodyOrError(reply).error)])
  {
    var deleted := DeleteReservation(c, ValueString(state.space), ValueString(state.block), ValueString(state.id), reply);
    sent := deleted.sent;
    if deleted.result.Err? {
      return sent, Failed([Error("Error Deleting AzureIpam Reservation",
                                 "Could not delete reservation, unexpected error: " + deleted.result.error)]);
    }
    return sent, Saved;
  }
}
