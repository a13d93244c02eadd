/**
 * The reservation resource of the SDK-v2 provider (azureipam/resource_reservation.go).
 *
 * The resource's Terraform id is the composite "{space}/{block}/{reservation id}". The
 * reservation record this file reads carries a `UserId` field, and it calls a four-argument
 * `CreateReservation`; neither is part of this model, so the record is declared here with the
 * fields the file uses, the create call is recorded as its arguments, and the answers of the
 * create and lookup calls are parameters.
 */
module LegacyReservationResource {
  import opened Wrappers
  import opened GoText
  import opened Tf
  import opened IpamClient
  import opened ReservationClient

  /** The fields of a reservation this file reads. */
  datatype LegacyReservation = LegacyReservation(
    id: string,
    cidr: string,
    userId: string,
    createdOn: real,
    status: string,
    tags: map<string, string>)

  /** A value stored with `d.Set`: text, an instant (rendered as RFC 1123 text), or a map of strings. */
  datatype Attribute = Text(s: string) | Time(t: Timestamp) | StringMap(m: map<string, string>)

  /** The `*schema.ResourceData` of one resource: its Terraform id and the attributes set on it. */
  class ResourceData {
    var id: string
    var attributes: map<string, Attribute>

    /** `d.Set(key, value)`. */
    method Set(key: string, value: Attribute)
      modifies this
      ensures attributes == old(attributes)[key := value] && id == old(id)
    {
      attributes := attributes[key := value];
    }

    /** `flattenReservation`, writing `Flattened` over the attributes one `d.Set` at a time. */
    method Flatten(reservation: Option<LegacyReservation>, space: string, block: string)
      modifies this
      ensures id == old(id)
      ensures attributes == Flattened(old(attributes), reservation, space, block)
    {
      Set("space", Text(space));
      Set("block", Text(block));
      if reservation.Some? {
        var r := reservation.value;
        Set("id", Text(r.id));
        Set("cidr", Text(r.cidr));
        Set("user_id", Text(r.userId));
        Set("created_on", Time(UnixTime(r.createdOn)));
        Set("status", Text(r.status));
        Set("tags", StringMap(r.tags));
      } else {
        Set("status", Text("not_found"));
      }
    }
  }

  /** The attribute `key` is set, to `value`. */
  predicate Has(attributes: map<string, Attribute>, key: string, value: Attribute) {
    key in attributes && attributes[key] == value
  }

  /**
   * The attributes after `flattenReservation`: space and block always come from the
   * arguments; a reservation's fields are copied, and without one the status becomes
   * "not_found". Every other attribute keeps its value.
   */
  function Flattened(attributes: map<string, Attribute>, reservation: Option<LegacyReservation>,
                     space: string, block: string): (r: map<string, Attribute>)
    ensures Has(r, "space", Text(space)) && Has(r, "block", Text(block))
    ensures reservation.Some? ==>
              var v := reservation.value;
              Has(r, "id", Text(v.id)) && Has(r, "cidr", Text(v.cidr)) && Has(r, "user_id", Text(v.userId))
              && Has(r, "created_on", Time(UnixTime(v.createdOn))) && Has(r, "status", Text(v.status))
              && Has(r, "tags", StringMap(v.tags))
    ensures reservation.None? ==> Has(r, "status", Text("not_found"))
    ensures forall k :: k in attributes ==> k in r
    ensures forall k :: k in r && k !in FlattenedKeys(reservation) ==> k in attributes && r[k] == attributes[k]
  {
    var located := attributes["space" := Text(space)]["block" := Text(block)];
    match reservation
    case Some(v) =>
      located["id" := Text(v.id)]["cidr" := Text(v.cidr)]["user_id" := Text(v.userId)]
             ["created_on" := Time(UnixTime(v.createdOn))]["status" := Text(v.status)]["tags" := StringMap(v.tags)]
    case None =>
      located["status" := Text("not_found")]
  }

  /** The attributes `flattenReservation` sets. */
  function FlattenedKeys(reservation: Option<LegacyReservation>): set<string> {
    if reservation.Some? then {"space", "block", "id", "cidr", "user_id", "created_on", "status", "tags"}
    else {"space", "block", "status"}
  }

  /** Flattening a missing reservation twice is flattening it once. */
  lemma FlattenMissingTwice(attributes: map<string, Attribute>, space: string, block: string)
    ensures Flattened(Flattened(attributes, None, space, block), None, space, block)
            == Flattened(attributes, None, space, block)
  {
  }

  /** The composite Terraform id, `fmt.Sprintf("%s/%s/%s", space, block, id)`. */
  function FormatId(space: string, block: string, reservationId: string): (s: string)
    ensures s == Join([space, block, reservationId], '/')
  {
    var s := space + "/" + block + "/" + reservationId;
    assert Join([space, block, reservationId], '/') == space + "/" + (block + "/" + reservationId) by {
      assert [space, block, reservationId][1..] == [block, reservationId];
      assert [block, reservationId][1..] == [reservationId];
      assert Join([reservationId], '/') == reservationId;
      assert Join([block, reservationId], '/') == block + "/" + reservationId;
    }
    s
  }

  /**
   * The first three "/"-separated pieces of a composite id. Indexing a split with fewer pieces
   * panics; the error is the panic's message. Pieces after the third are ignored.
   */
  function SplitId(resourceId: string): (r: Result<(string, string, string)>)
    ensures r.Ok? <==> |Split(resourceId, '/')| >= 3
    ensures r.Ok? ==> var parts := Split(resourceId, '/'); r.value == (parts[0], parts[1], parts[2])
    ensures r.Ok? ==> '/' !in r.value.0 && '/' !in r.value.1 && '/' !in r.value.2
    ensures |Split(resourceId, '/')| == 1 ==> r == Err("runtime error: index out of range [1] with length 1")
    ensures |Split(resourceId, '/')| == 2 ==> r == Err("runtime error: index out of range [2] with length 2")
  {
    var parts := Split(resourceId, '/');
    if |parts| < 2 then Err("runtime error: index out of range [1] with length 1")
    else if |parts| < 3 then Err("runtime error: index out of range [2] with length 2")
    else Ok((parts[0], parts[1], parts[2]))
  }

  /**
   * Splitting a formatted id gives back its parts exactly when none of them holds "/": a "/"
   * inside a part moves the cut.
   */
  lemma SplitFormatRoundTrip(space: string, block: string, reservationId: string)
    ensures SplitId(FormatId(space, block, reservationId)) == Ok((space, block, reservationId))
            <==> '/' !in space && '/' !in block && '/' !in reservationId
  {
    if '/' !in space && '/' !in block && '/' !in reservationId {
      SplitSingle(reservationId, '/');
      SplitCons(block, '/', reservationId);
      assert block + "/" + reservationId == block + ['/'] + reservationId;
      SplitCons(space, '/', block + "/" + reservationId);
      assert FormatId(space, block, reservationId) == space + ['/'] + (block + "/" + reservationId);
    }
  }

  /** What `Create` records of its call to the four-argument `CreateReservation`. */
  datatype CreateCall = CreateCall(space: string, block: string, description: string, size: int)

  /**
   * `resourceReservationCreate`: creates the reservation from the configured space, block,
   * description and size. On success the Terraform id becomes the composite id and the
   * reservation is flattened; an error becomes the only diagnostic (`diag.FromErr`).
   */
  method Create(d: ResourceData, space: string, block: string, description: string, size: int,
                answer: Result<LegacyReservation>) returns (call: CreateCall, end: HandlerEnd)
    modifies d
    ensures call == CreateCall(space, block, description, size)
    ensures answer.Err? ==> end == Failed([Error(answer.error, "")]) && unchanged(d)
    ensures answer.Ok? ==>
              end == Saved && d.id == FormatId(space, block, answer.value.id)
              && d.attributes == Flattened(old(d.attributes), Some(answer.value), space, block)
  {
    call := CreateCall(space, block, description, size);
    if answer.Err? {
      return call, Failed([Error(answer.error, "")]);
    }
    var reservation := answer.value;
    d.id := FormatId(space, block, reservation.id);
    d.Flatten(Some(reservation), space, block);
    return call, Saved;
  }

  /**
   * `resourceReservationRead`: splits the Terraform id and looks the reservation up by its
   * parts (`lookedUp`). A failed lookup is not reported: the reservation is flattened as
   * missing, so the status reads "not_found". A split with fewer than three pieces panics.
   */
  method Read(d: ResourceData, found: Result<LegacyReservation>)
    returns (lookedUp: Option<(string, string, string)>, end: HandlerEnd)
    modifies d
    ensures SplitId(old(d.id)).Err? ==> lookedUp.None? && end == Crashed(SplitId(old(d.id)).error) && unchanged(d)
    ensures SplitId(old(d.id)).Ok? ==>
              var parts := SplitId(old(d.id)).value;
              lookedUp == Some(parts) && end == Saved && d.id == old(d.id)
              && d.attributes == Flattened(old(d.attributes), if found.Ok? then Some(found.value) else None, parts.0, parts.1)
  {
    var idParts := SplitId(d.id);
    if idParts.Err? {
      return None, Crashed(idParts.error);
    }
    var (space, block, id) := idParts.value;
    lookedUp := Some((space, block, id));
    var reservation: Option<LegacyReservation> := if found.Ok? then Some(found.value) else None;
    if found.Err? {
      d.Flatten(None, space, block);
      FlattenMissingTwice(old(d.attributes), space, block);
    }
    d.Flatten(reservation, space, block);
    return lookedUp, Saved;
  }

  /**
   * `resourceReservationDelete`: splits the Terraform id and deletes the reservation by its
   * parts; on success the Terraform id is cleared, and an error becomes the only diagnostic.
   */
  method Delete(d: ResourceData, c: Client, reply: Result<string>) returns (sent: seq<Request>, end: HandlerEnd)
    modifies d
    ensures SplitId(old(d.id)).Err? ==> sent == [] && end == Crashed(SplitId(old(d.id)).error) && unchanged(d)
    ensures SplitId(old(d.id)).Ok? ==>
              var parts := SplitId(old(d.id)).value;
              sent == [Request(DELETE, ReservationsUrl(c, parts.0, parts.1), Some(IdListBody(parts.2)))]
              && d.attributes == old(d.attributes)
              && (reply == Ok("") ==> end == Saved && d.id == "")
              && (reply != Ok("") ==> end == Failed([Error(EmptyBodyOrError(reply).error, "")]) && d.id == old(d.id))
  {
    var idParts := SplitId(d.id);
    if idParts.Err? {
      return [], Crashed(idParts.error);
    }
    var (space, block, id) := idParts.value;
    var deleted := DeleteReservation(c, space, block, id, reply);
    sent := deleted.sent;
    if deleted.result.Err? {
      return sent, Failed([Error(deleted.result.error, "")]);
    }
    d.id := "";
    return sent, Saved;
  }
}
