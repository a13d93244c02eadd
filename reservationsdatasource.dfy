/**
 * The reservations data source of the plugin-framework provider
 * (internal/provider/reservations_data_source.go): the reservations of one block.
 */
module ReservationsDataSource {
  import opened Wrappers
  import opened GoSlices
  import opened Tf
  import opened IpamModels
  import opened IpamClient
  import opened ReservationClient
  import opened ProviderModels

  /** One listed reservation: the attributes of a `ReservationModel` and the tags. */
  datatype ReservationsModel = ReservationsModel(
    id: Value<string>,
    cidr: Value<string>,
    description: Value<string>,
    createdOn: Value<Timestamp>,
    createdBy: Value<string>,
    settledOn: Value<Timestamp>,
    settledBy: Value<string>,
    status: Value<string>,
    tags: Value<map<string, string>>)

  /**
   * The model the loop body fills from one reservation: the strings and tags copied, the
   * creation time truncated to whole seconds, and the settlement fields null exactly when
   * absent.
   */
  function ReservationsEntry(r: Reservation): (m: ReservationsModel)
    ensures m.id == Known(r.id) && m.cidr == Known(r.cidr) && m.description == Known(r.description)
    ensures m.createdOn == Known(UnixTime(r.createdOn)) && m.createdBy == Known(r.createdBy)
    ensures m.status == Known(r.status) && m.tags == Known(r.tags)
    ensures m.settledOn.Null? <==> r.settledOn.None?
    ensures m.settledBy.Null? <==> r.settledBy.None?
  {
    ReservationsModel(StringValue(r.id), StringValue(r.cidr), StringValue(r.description),
                      Known(UnixTime(r.createdOn)), StringValue(r.createdBy),
                      TimeValue(r.settledOn), FromPointer(r.settledBy), StringValue(r.status), Known(r.tags))
  }

  /**
   * The listed reservation carries the same eight attributes `flattenReservationInfo` gives
   * the same reservation inside a block.
   */
  lemma EntryAgreesWithInfo(r: Reservation)
    ensures var m := ReservationsEntry(r);
            var info := ReservationInfoModel(ReservationInfo(r.id, r.cidr, r.description, r.createdOn, r.createdBy,
                                                             r.settledOn, r.settledBy, r.status));
            ReservationModel(m.id, m.cidr, m.description, m.createdOn, m.createdBy, m.settledOn, m.settledBy, m.status) == info
  {
  }

  /** The data source's model: which block, whether settled reservations count, and the reservations read. */
  class ReservationsDataSourceModel {
    var space: Value<string>
    var block: Value<string>
    var includeSettled: Value<bool>
    var reservations: Option<seq<ReservationsModel>>
  }

  /**
   * `Read`: lists the configured block's reservations, settled ones only when
   * `include_settled` is true, and appends one model per reservation, in order. A failed
   * request is one error diagnostic, and the state is left as configured.
   */
  method Read(state: ReservationsDataSourceModel, c: Client, answer: Result<seq<Reservation>>)
    returns (sent: seq<Request>, end: HandlerEnd)
    modifies state
    ensures sent == [GetReservationsRequest(c, ValueString(old(state.space)), ValueString(old(state.block)),
                                            ValueBool(old(state.includeSettled)))]
    ensures state.space == old(state.space) && state.block == old(state.block)
    ensures state.includeSettled == old(state.includeSettled)
    ensures answer.Err? ==>
              end == Failed([Error("Unable to Read AzureIpam Reservations", answer.error)])
              && state.reservations == old(state.reservations)
    ensures answer.Ok? ==>
              end == Saved && state.reservations == AppendAll(old(state.reservations), Map(ReservationsEntry, answer.value))
  {
    var listed := GetReservations(c, ValueString(state.space), ValueString(state.block), ValueBool(state.includeSettled), answer);
    sent := listed.sent;
    if listed.result.Err? {
      return sent, Failed([Error("Unable to Read AzureIpam Reservations", listed.result.error)]);
    }
    var reservations := listed.result.value;
    for i := 0 to |reservations|
      invariant state.reservations == AppendAll(old(state.reservations), Map(ReservationsEntry, reservations[..i]))
      invariant state.space == old(state.space) && state.block == old(state.block)
      invariant state.includeSettled == old(state.includeSettled)
    {
      var reservation := reservations[i];
      var settledOn: Value<Timestamp>;
      if reservation.settledOn.None? {
        settledOn := Null;
      } else {
        settledOn := Known(UnixTime(reservation.settledOn.value));
      }
      var settledBy: Value<string>;
      if reservation.settledBy.None? {
        settledBy := Null;
      } else {
        settledBy := Known(reservation.settledBy.value);
      }
      var entry := ReservationsModel(StringValue(reservation.id), StringValue(reservation.cidr),
                                     StringValue(reservation.description), Known(UnixTime(reservation.createdOn)),
                                     StringValue(reservation.createdBy), settledOn, settledBy,
                                     StringValue(reservation.status), Known(reservation.tags));
      MapSnoc(ReservationsEntry, reservations, i);
      AppendAllSnoc(old(state.reservations), Map(ReservationsEntry, reservations[..i]), entry);
      state.reservations := Append(state.reservations, entry);
    }
    assert reservations[..|reservations|] == reservations;
    return sent, Saved;
  }
}
