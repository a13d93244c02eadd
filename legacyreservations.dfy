/**
 * The reservations data source of the SDK-v2 provider (azureipam/data_source_reservations.go).
 *
 * `parseReservations` reads the settlement time and settler as plain values, as the record of
 * that revision declares them; a reservation whose settlement fields are absent therefore
 * lists the zero values: the instant of Unix time 0 and an empty settler.
 */
module LegacyReservations {
  import opened Wrappers
  import opened GoText
  import opened Tf
  import opened IpamModels
  import opened IpamClient
  import opened ReservationClient
  import opened LegacySpaces

  /** A listed reservation; both times are rendered as RFC 1123 text of the truncated instant. */
  datatype ReservationItem = ReservationItem(
    id: string,
    cidr: string,
    description: string,
    createdOn: Timestamp,
    createdBy: string,
    settledOn: Timestamp,
    settledBy: string,
    status: string,
    tags: map<string, string>)

  /** One reservation's item: every field as decoded, an absent settlement as its zero value. */
  function ReservationItemOf(r: Reservation): (item: ReservationItem)
    ensures item.id == r.id && item.cidr == r.cidr && item.description == r.description
    ensures item.createdOn == UnixTime(r.createdOn) && item.createdBy == r.createdBy
    ensures item.status == r.status && item.tags == r.tags
    ensures item.settledOn == UnixTime(r.settledOn.GetOr(0.0)) && item.settledBy == r.settledBy.GetOr("")
  {
    ReservationItem(r.id, r.cidr, r.description, UnixTime(r.createdOn), r.createdBy,
                    UnixTime(r.settledOn.GetOr(0.0)), r.settledBy.GetOr(""), r.status, r.tags)
  }

  /** An unsettled reservation lists the epoch as its settlement time and nobody as its settler. */
  lemma UnsettledListsZero(r: Reservation)
    requires r.settledOn.None? && r.settledBy.None?
    ensures ReservationItemOf(r).settledOn == Unix(0) && ReservationItemOf(r).settledBy == ""
  {
    assert (0.0).Floor == 0;
  }

  /** `parseReservations`: one item per reservation, in order; none for a nil pointer. */
  function ReservationItems(reservations: Option<seq<Reservation>>): (r: seq<ReservationItem>)
    ensures |r| == |Listed(reservations)|
    ensures forall k :: 0 <= k < |r| ==> r[k] == ReservationItemOf(Listed(reservations)[k])
  {
    var xs := Listed(reservations);
    seq(|xs|, k requires 0 <= k < |xs| => ReservationItemOf(xs[k]))
  }

  method ParseReservations(reservations: Option<seq<Reservation>>) returns (results: seq<ReservationItem>)
    ensures results == ReservationItems(reservations)
  {
    results := [];
    if reservations.Some? {
      var xs := reservations.value;
      for i := 0 to |xs|
        invariant |results| == i && forall k :: 0 <= k < i ==> results[k] == ReservationItemOf(xs[k])
      {
        var r := xs[i];
        results := results + [ReservationItem(r.id, r.cidr, r.description, UnixTime(r.createdOn), r.createdBy,
                                              UnixTime(r.settledOn.GetOr(0.0)), r.settledBy.GetOr(""), r.status, r.tags)];
      }
    }
  }

  /** What `dataSourceReservationsRead` leaves: the reservations attribute and the data source id, when set. */
  datatype ReservationsRead = ReservationsRead(sent: seq<Request>, reservations: Option<seq<ReservationItem>>,
                                               id: Option<string>, diagnostics: seq<Diagnostic>)

  /**
   * `dataSourceReservationsRead`: lists the configured block's reservations, settled ones
   * only when `include_settled` is set; the data source id is the current Unix time `now` in
   * decimal. A failed request is the only diagnostic, and nothing is set. `setError` is the
   * error `d.Set("reservations", …)` returns, if any: it becomes the only diagnostic, and the
   * id is not set.
   */
  method Read(c: Client, space: string, block: string, includeSettled: bool,
              answer: Result<seq<Reservation>>, setError: Option<string>, now: int) returns (r: ReservationsRead)
    ensures r.sent == [GetReservationsRequest(c, space, block, includeSettled)]
    ensures answer.Err? ==> r.diagnostics == [Error(answer.error, "")] && r.reservations.None? && r.id.None?
    ensures answer.Ok? && setError.Some? ==>
              r.diagnostics == [Error(setError.value, "")] && r.reservations.None? && r.id.None?
    ensures answer.Ok? && setError.None? ==>
              r.diagnostics == [] && r.id == Some(IntText(now))
              && r.reservations == Some(ReservationItems(Some(answer.value)))
  {
    var listed := GetReservations(c, space, block, includeSettled, answer);
    if listed.result.Err? {
      return ReservationsRead(listed.sent, None, None, [Error(listed.result.error, "")]);
    }
    var reservationItems := ParseReservations(Some(listed.result.value));
    if setError.Some? {
      return ReservationsRead(listed.sent, None, None, [Error(setError.value, "")]);
    }
    return ReservationsRead(listed.sent, Some(reservationItems), Some(IntText(now)), []);
  }
}
