/**
 * The spaces data source of the plugin-framework provider
 * (internal/provider/spaces_data_source.go): every space, with its blocks, networks,
 * externals and reservations.
 *
 * Its flatten functions repeat those of internal/provider/models.go over the records
 * `GetSpaces` decodes (`Space`, `Block`, `Vnet`, `Subnet`, `External`, `ReservationLite`), and
 * fill the same models: the networks, subnets and externals are converted exactly as
 * `ProviderModels` converts them, and a listed reservation fills the same eight attributes
 * as a `ReservationModel`.
 *
 * `flattenReservationLite` tests the settlement fields against nil, while the record declares
 * them as plain values that decoding leaves at zero when the key is absent; here a zero
 * settlement time and an empty settler stand for the absent value.
 */
module SpacesDataSource {
  import opened Wrappers
  import opened GoSlices
  import opened Tf
  import opened IpamModels
  import opened IpamClient
  import opened SpaceClient
  import opened ProviderModels

  /**
   * `flattenReservationLite`: the strings copied, the creation time truncated to whole
   * seconds, and the settlement fields null exactly when they are absent (zero).
   */
  function ReservationLiteModel(r: ReservationLite): (m: ReservationModel)
    ensures m.id == Known(r.id) && m.cidr == Known(r.cidr) && m.description == Known(r.description)
    ensures m.createdOn == Known(UnixTime(r.createdOn)) && m.createdBy == Known(r.createdBy)
    ensures m.status == Known(r.status)
    ensures m.settledOn.Null? <==> r.settledOn == 0.0
    ensures m.settledBy.Null? <==> r.settledBy == ""
    ensures r.settledOn != 0.0 ==> m.settledOn == Known(UnixTime(r.settledOn))
    ensures r.settledBy != "" ==> m.settledBy == Known(r.settledBy)
  {
    ReservationModel(StringValue(r.id), StringValue(r.cidr), StringValue(r.description),
                     Known(UnixTime(r.createdOn)), StringValue(r.createdBy),
                     TimeValue(SettledPointer(r.settledOn, 0.0)), FromPointer(SettledPointer(r.settledBy, "")),
                     StringValue(r.status))
  }

  /** A decoded plain field as the pointer it stands for: nil when it holds the zero value. */
  function SettledPointer<T(==)>(x: T, zero: T): (p: Option<T>)
    ensures p.None? <==> x == zero
    ensures p.Some? ==> p.value == x
  {
    if x == zero then None else Some(x)
  }

  /**
   * A listed reservation fills the same model as the full reservation it summarises, when
   * its settlement fields are absent exactly when the full one's are.
   */
  lemma ReservationLiteAgreesWithInfo(r: ReservationLite, info: ReservationInfo)
    requires info.id == r.id && info.cidr == r.cidr && info.description == r.description
    requires info.createdOn == r.createdOn && info.createdBy == r.createdBy && info.status == r.status
    requires info.settledOn == SettledPointer(r.settledOn, 0.0) && info.settledBy == SettledPointer(r.settledBy, "")
    ensures ReservationLiteModel(r) == ReservationInfoModel(info)
  {
  }

  /**
   * `flattenBlock`: name and CIDR copied; vnets, externals and reservations converted one by
   * one, in order, each null when there are none; size and used null exactly when absent.
   */
  function BlockLiteModel(b: Block): (m: BlockModel)
    ensures m.name == Known(b.name) && m.cidr == Known(b.cidr)
    ensures m.vnets.None? <==> b.vnets == []
    ensures m.vnets.Some? ==> |m.vnets.value| == |b.vnets|
                              && forall k :: 0 <= k < |b.vnets| ==> m.vnets.value[k] == VnetInfoModel(b.vnets[k])
    ensures m.externals.None? <==> b.externals == []
    ensures m.externals.Some? ==> |m.externals.value| == |b.externals|
                                  && forall k :: 0 <= k < |b.externals| ==> m.externals.value[k] == ExternalInfoModel(b.externals[k])
    ensures m.reservations.None? <==> b.reservations == []
    ensures m.reservations.Some? ==>
              |m.reservations.value| == |b.reservations|
              && forall k :: 0 <= k < |b.reservations| ==> m.reservations.value[k] == ReservationLiteModel(b.reservations[k])
    ensures m.size.Null? <==> b.size.None?
    ensures m.used.Null? <==> b.used.None?
  {
    BlockModel(StringValue(b.name), StringValue(b.cidr), FromNil(Map(VnetInfoModel, b.vnets)),
               FromNil(Map(ExternalInfoModel, b.externals)), FromNil(Map(ReservationLiteModel, b.reservations)),
               FromPointer(b.size), FromPointer(b.used))
  }

  /**
   * `flattenSpaceLite`: name and description copied; blocks converted one by one, in order,
   * and null when there are none; size and used null exactly when absent.
   */
  function SpaceLiteModel(s: Space): (m: SpaceModel)
    ensures m.name == Known(s.name) && m.description == Known(s.description)
    ensures m.blocks.None? <==> s.blocks == []
    ensures m.blocks.Some? ==> |m.blocks.value| == |s.blocks|
                               && forall k :: 0 <= k < |s.blocks| ==> m.blocks.value[k] == BlockLiteModel(s.blocks[k])
    ensures m.size.Null? <==> s.size.None?
    ensures m.used.Null? <==> s.used.None?
  {
    SpaceModel(StringValue(s.name), StringValue(s.description), FromNil(Map(BlockLiteModel, s.blocks)),
               FromPointer(s.size), FromPointer(s.used))
  }

  /** `flattenBlock`, one range loop per list; a network is converted by `flattenVnet`, the code of `flattenVnetInfo`. */
  method FlattenBlock(b: Block) returns (m: BlockModel)
    ensures m == BlockLiteModel(b)
  {
    var vnets: Option<seq<VnetModel>> := None;
    for i := 0 to |b.vnets|
      invariant vnets == FromNil(Map(VnetInfoModel, b.vnets[..i]))
    {
      var vnet := FlattenVnetInfo(b.vnets[i]);
      MapSnoc(VnetInfoModel, b.vnets, i);
      FromNilSnoc(Map(VnetInfoModel, b.vnets[..i]), vnet);
      vnets := Append(vnets, vnet);
    }
    var externals: Option<seq<ExternalModel>> := None;
    for i := 0 to |b.externals|
      invariant externals == FromNil(Map(ExternalInfoModel, b.externals[..i]))
    {
      MapSnoc(ExternalInfoModel, b.externals, i);
      FromNilSnoc(Map(ExternalInfoModel, b.externals[..i]), ExternalInfoModel(b.externals[i]));
      externals := Append(externals, ExternalInfoModel(b.externals[i]));
    }
    var reservations: Option<seq<ReservationModel>> := None;
    for i := 0 to |b.reservations|
      invariant reservations == FromNil(Map(ReservationLiteModel, b.reservations[..i]))
    {
      MapSnoc(ReservationLiteModel, b.reservations, i);
      FromNilSnoc(Map(ReservationLiteModel, b.reservations[..i]), ReservationLiteModel(b.reservations[i]));
      reservations := Append(reservations, ReservationLiteModel(b.reservations[i]));
    }
    assert b.vnets[..|b.vnets|] == b.vnets;
    assert b.externals[..|b.externals|] == b.externals;
    assert b.reservations[..|b.reservations|] == b.reservations;
    m := BlockModel(StringValue(b.name), StringValue(b.cidr), vnets, externals, reservations,
                    FromPointer(b.size), FromPointer(b.used));
  }

  /** `flattenSpaceLite`, one range loop over the blocks. */
  method FlattenSpaceLite(s: Space) returns (m: SpaceModel)
    ensures m == SpaceLiteModel(s)
  {
    var blocks: Option<seq<BlockModel>> := None;
    for i := 0 to |s.blocks|
      invariant blocks == FromNil(Map(BlockLiteModel, s.blocks[..i]))
    {
      var block := FlattenBlock(s.blocks[i]);
      MapSnoc(BlockLiteModel, s.blocks, i);
      FromNilSnoc(Map(BlockLiteModel, s.blocks[..i]), block);
      blocks := Append(blocks, block);
    }
    assert s.blocks[..|s.blocks|] == s.blocks;
    m := SpaceModel(StringValue(s.name), StringValue(s.description), blocks, FromPointer(s.size), FromPointer(s.used));
  }

  /** The data source's model: the two request flags from the configuration, and the spaces read. */
  class SpacesDataSourceModel {
    var expand: Value<bool>
    var appendUtilization: Value<bool>
    var spaces: Option<seq<SpaceModel>>
  }

  /**
   * `Read`: asks for every space with the configured `expand` and `append_utilization` flags
   * (null reads as false) and appends one model per space, in order, to the state's spaces.
   * A failed request is one error diagnostic, and the state is left as configured.
   */
  method Read(state: SpacesDataSourceModel, c: Client, answer: Result<seq<Space>>)
    returns (sent: seq<Request>, end: HandlerEnd)
    modifies state
    ensures sent == GetSpaces(c, ValueBool(old(state.expand)), ValueBool(old(state.appendUtilization)), answer).sent
    ensures state.expand == old(state.expand) && state.appendUtilization == old(state.appendUtilization)
    ensures answer.Err? ==>
              end == Failed([Error("Unable to Read AzureIpam Spaces", answer.error)]) && state.spaces == old(state.spaces)
    ensures answer.Ok? ==> end == Saved && state.spaces == AppendAll(old(state.spaces), Map(SpaceLiteModel, answer.value))
  {
    var listed := GetSpaces(c, ValueBool(state.expand), ValueBool(state.appendUtilization), answer);
    sent := listed.sent;
    if listed.result.Err? {
      return sent, Failed([Error("Unable to Read AzureIpam Spaces", listed.result.error)]);
    }
    var spaces := listed.result.value;
    for i := 0 to |spaces|
      invariant state.spaces == AppendAll(old(state.spaces), Map(SpaceLiteModel, spaces[..i]))
      invariant state.expand == old(state.expand) && state.appendUtilization == old(state.appendUtilization)
    {
      var space := FlattenSpaceLite(spaces[i]);
      MapSnoc(SpaceLiteModel, spaces, i);
      AppendAllSnoc(old(state.spaces), Map(SpaceLiteModel, spaces[..i]), space);
      state.spaces := Append(state.spaces, space);
    }
    assert spaces[..|spaces|] == spaces;
    return sent, Saved;
  }
}
