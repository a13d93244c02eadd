/** Reservations of a block (ipamclient/reservation.go). */
module ReservationClient {
  import opened Wrappers
  import opened GoText
  import opened Json
  import opened IpamModels
  import opened IpamClient

  function ReservationsUrl(c: Client, space: string, block: string): string {
    BlockUrl(c, space, block) + "/reservations"
  }

  function GetReservationsRequest(c: Client, space: string, block: string, includeSettled: bool): Request {
    Request(GET, ReservationsUrl(c, space, block) + "?settled=" + BoolText(includeSettled), None)
  }

  /**
   * `GetReservations`: one GET of the block's reservations, settled ones included only when
   * asked; the decoded list, or the error, is returned as it came.
   */
  function GetReservations(c: Client, space: string, block: string, includeSettled: bool,
                           answer: Result<seq<Reservation>>): (o: Outcome<seq<Reservation>>)
    ensures o.Returned? && |o.sent| == 1
    ensures o.sent[0].verb == GET && o.sent[0].body.None?
    ensures o.sent[0].url == ReservationsUrl(c, space, block) + (if includeSettled then "?settled=true" else "?settled=false")
    ensures o.result == answer
  {
    Returned([GetReservationsRequest(c, space, block, includeSettled)], answer)
  }

  /** The position of the first reservation with the given id, if there is one. */
  function FirstWithId(rs: seq<Reservation>, id: string): (k: Option<nat>)
    ensures k.Some? ==> k.value < |rs| && rs[k.value].id == id
    ensures k.Some? ==> forall j :: 0 <= j < k.value ==> rs[j].id != id
    ensures k.None? <==> forall j :: 0 <= j < |rs| ==> rs[j].id != id
    decreases |rs|
  {
    if rs == [] then None
    else if rs[0].id == id then Some(0)
    else match FirstWithId(rs[1..], id)
      case None => None
      case Some(k) => Some(k + 1)
  }

  /**
   * `GetReservation`: lists the block's reservations, settled ones included, and returns the
   * first one carrying the id; when none does, the error names the id.
   */
  method GetReservation(c: Client, space: string, block: string, id: string,
                        answer: Result<seq<Reservation>>) returns (o: Outcome<Reservation>)
    ensures o.Returned? && o.sent == [GetReservationsRequest(c, space, block, true)]
    ensures answer.Err? ==> o.result == Err(answer.error)
    ensures answer.Ok? ==> match FirstWithId(answer.value, id)
      case Some(k) => o.result == Ok(answer.value[k])
      case None => o.result == Err("Reservation not found: " + id)
  {
    var listed := GetReservations(c, space, block, true, answer);
    if listed.result.Err? {
      return Returned(listed.sent, Err(listed.result.error));
    }
    var reservations := listed.result.value;
    var i := 0;
    while i < |reservations|
      invariant 0 <= i <= |reservations|
      invariant forall j :: 0 <= j < i ==> reservations[j].id != id
    {
      if reservations[i].id == id {
        assert FirstWithId(reservations, id) == Some(i);
        return Returned(listed.sent, Ok(reservations[i]));
      }
      i := i + 1;
    }
    return Returned(listed.sent, Err("Reservation not found: " + id));
  }

  /**
   * `CreateReservation`: POSTs a reservation request. The description is copied only when
   * non-empty, but the `desc` key has no `omitempty`, so the body always carries it.
   */
  method CreateReservation(c: Client, space: string, block: string, description: string, size: int,
                           reverseSearch: bool, smallestCidr: bool, answer: Result<Reservation>)
    returns (o: Outcome<Reservation>)
    ensures o.Returned? && o.result == answer
    ensures o.sent == [Request(POST, ReservationsUrl(c, space, block),
                               Some(EncodeReservationRequest(ReservationRequest(size, description, reverseSearch, smallestCidr))))]
    ensures o.sent[0].body.value.members["desc"] == JString(description)
  {
    var request := ReservationRequest(size, "", reverseSearch, smallestCidr);
    if description != "" {
      request := request.(description := description);
    }
    var req := Request(POST, ReservationsUrl(c, space, block), Some(EncodeReservationRequest(request)));
    return Returned([req], answer);
  }

  /**
   * `DeleteReservation`: DELETE with the id as a one-element JSON array; success is an empty
   * reply, and a non-empty reply is returned as the error.
   */
  function DeleteReservation(c: Client, space: string, block: string, id: string,
                             reply: Result<string>): (o: Outcome<()>)
    ensures o.Returned? && o.sent == [Request(DELETE, ReservationsUrl(c, space, block), Some(IdListBody(id)))]
    ensures o.result.Ok? <==> reply == Ok("")
    ensures reply.Ok? && reply.value != "" ==> o.result == Err(reply.value)
    ensures reply.Err? ==> o.result == Err(reply.error)
  {
    Returned([Request(DELETE, ReservationsUrl(c, space, block), Some(IdListBody(id)))], EmptyBodyOrError(reply))
  }
}
