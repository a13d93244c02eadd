/**
 * The nested Terraform models shared by the plugin-framework data sources, and the
 * functions that fill them from the API's records (internal/provider/models.go).
 *
 * Each flatten function starts from a zero model and appends to its slices in range loops,
 * so a list attribute is a nil slice (a null list) when its source is empty. Here a list
 * attribute is an `Option<seq<..>>`: `None` is the nil slice.
 *
 * The records the functions read (`SpaceInfo`, `BlockInfo`, `VnetInfo`, `SubnetInfo`,
 * `ExternalInfo`, `ReservationInfo`) are not declared in ipamclient/models.go. They are
 * taken to have the fields the functions read, with the optionality their nil checks show:
 * the vnet, subnet and external records are those of `IpamModels`, and a `ReservationInfo`
 * has optional settlement fields.
 */
module ProviderModels {
  import opened Wrappers
  import opened GoSlices
  import opened Tf
  import opened IpamModels

  type VnetInfo = Vnet
  type SubnetInfo = Subnet
  type ExternalInfo = External

  datatype ReservationInfo = ReservationInfo(
    id: string,
    cidr: string,
    description: string,
    createdOn: real,
    createdBy: string,
    settledOn: Option<real>,
    settledBy: Option<string>,
    status: string)

  datatype BlockInfo = BlockInfo(
    name: string,
    cidr: string,
    vnets: seq<VnetInfo>,
    externals: seq<ExternalInfo>,
    reservations: seq<ReservationInfo>,
    size: Option<real>,
    used: Option<real>)

  datatype SpaceInfo = SpaceInfo(
    name: string,
    description: string,
    blocks: seq<BlockInfo>,
    size: Option<real>,
    used: Option<real>)

  // ---------------------------------------------------------------------------
  // The Terraform models
  // ---------------------------------------------------------------------------

  datatype SpaceModel = SpaceModel(
    name: Value<string>,
    description: Value<string>,
    blocks: Option<seq<BlockModel>>,
    size: Value<real>,
    used: Value<real>)

  datatype BlockModel = BlockModel(
    name: Value<string>,
    cidr: Value<string>,
    vnets: Option<seq<VnetModel>>,
    externals: Option<seq<ExternalModel>>,
    reservations: Option<seq<ReservationModel>>,
    size: Value<real>,
    used: Value<real>)

  datatype VnetModel = VnetModel(
    name: Value<string>,
    id: Value<string>,
    prefixes: Option<seq<Value<string>>>,
    subnets: Option<seq<SubnetModel>>,
    resourceGroup: Value<string>,
    subscriptionId: Value<string>,
    tenantId: Value<string>,
    size: Value<real>,
    used: Value<real>)

  datatype SubnetModel = SubnetModel(name: Value<string>, prefix: Value<string>, size: Value<real>, used: Value<real>)

  datatype ExternalModel = ExternalModel(name: Value<string>, description: Value<string>, cidr: Value<string>)

  datatype ReservationModel = ReservationModel(
    id: Value<string>,
    cidr: Value<string>,
    description: Value<string>,
    createdOn: Value<Timestamp>,
    createdBy: Value<string>,
    settledOn: Value<Timestamp>,
    settledBy: Value<string>,
    status: Value<string>)

  /** `types.StringValue`. */
  function StringValue(s: string): Value<string> {
    Known(s)
  }

  // ---------------------------------------------------------------------------
  // What each flatten function produces
  // ---------------------------------------------------------------------------

  /** `flattenSubnetInfo`: name and prefix copied, size and used null exactly when absent. */
  function SubnetInfoModel(s: SubnetInfo): (m: SubnetModel)
    ensures m.name == Known(s.name) && m.prefix == Known(s.prefix)
    ensures m.size.Null? <==> s.size.None?
    ensures m.used.Null? <==> s.used.None?
    ensures s.size.Some? ==> m.size == Known(s.size.value)
    ensures s.used.Some? ==> m.used == Known(s.used.value)
  {
    SubnetModel(StringValue(s.name), StringValue(s.prefix), FromPointer(s.size), FromPointer(s.used))
  }

  /** `flattenExternalInfo`: the three strings copied. */
  function ExternalInfoModel(e: ExternalInfo): (m: ExternalModel)
    ensures m.name == Known(e.name) && m.description == Known(e.description) && m.cidr == Known(e.cidr)
  {
    ExternalModel(StringValue(e.name), StringValue(e.description), StringValue(e.cidr))
  }

  /**
   * `flattenReservationInfo`: the strings copied, the creation time truncated to whole
   * seconds, and the settlement fields null exactly when absent.
   */
  function ReservationInfoModel(r: ReservationInfo): (m: ReservationModel)
    ensures m.id == Known(r.id) && m.cidr == Known(r.cidr) && m.description == Known(r.description)
    ensures m.createdOn == Known(UnixTime(r.createdOn)) && m.createdBy == Known(r.createdBy)
    ensures m.status == Known(r.status)
    ensures m.settledOn.Null? <==> r.settledOn.None?
    ensures m.settledBy.Null? <==> r.settledBy.None?
    ensures r.settledOn.Some? ==> m.settledOn == Known(UnixTime(r.settledOn.value))
    ensures r.settledBy.Some? ==> m.settledBy == Known(r.settledBy.value)
  {
    ReservationModel(StringValue(r.id), StringValue(r.cidr), StringValue(r.description),
                     Known(UnixTime(r.createdOn)), StringValue(r.createdBy),
                     TimeValue(r.settledOn), FromPointer(r.settledBy), StringValue(r.status))
  }

  /**
   * `flattenVnetInfo`: the id copied; the name and the Azure location null exactly when
   * absent; prefixes and subnets converted one by one, in order, and null when there are none.
   */
  function VnetInfoModel(v: VnetInfo): (m: VnetModel)
    ensures m.id == Known(v.id)
    ensures m.name.Null? <==> v.name.None?
    ensures m.resourceGroup.Null? <==> v.resourceGroup.None?
    ensures m.subscriptionId.Null? <==> v.subscriptionId.None?
    ensures m.tenantId.Null? <==> v.tenantId.None?
    ensures m.size.Null? <==> v.size.None?
    ensures m.used.Null? <==> v.used.None?
    ensures m.prefixes.None? <==> v.prefixes == []
    ensures m.prefixes.Some? ==> |m.prefixes.value| == |v.prefixes|
                                 && forall k :: 0 <= k < |v.prefixes| ==> m.prefixes.value[k] == Known(v.prefixes[k])
    ensures m.subnets.None? <==> v.subnets == []
    ensures m.subnets.Some? ==> |m.subnets.value| == |v.subnets|
                                && forall k :: 0 <= k < |v.subnets| ==> m.subnets.value[k] == SubnetInfoModel(v.subnets[k])
  {
    VnetModel(FromPointer(v.name), StringValue(v.id), FromNil(Map(StringValue, v.prefixes)),
              FromNil(Map(SubnetInfoModel, v.subnets)), FromPointer(v.resourceGroup),
              FromPointer(v.subscriptionId), FromPointer(v.tenantId), FromPointer(v.size), FromPointer(v.used))
  }

  /**
   * `flattenBlockInfo`: name and CIDR copied; vnets, externals and reservations converted one
   * by one, in order, each null when there are none; size and used null exactly when absent.
   */
  function BlockInfoModel(b: BlockInfo): (m: BlockModel)
    ensures m.name == Known(b.name) && m.cidr == Known(b.cidr)
    ensures m.vnets.None? <==> b.vnets == []
    ensures m.vnets.Some? ==> |m.vnets.value| == |b.vnets|
                              && forall k :: 0 <= k < |b.vnets| ==> m.vnets.value[k] == VnetInfoModel(b.vnets[k])
    ensures m.externals.None? <==> b.externals == []
    ensures m.externals.Some? ==> |m.externals.value| == |b.externals|
                                  && forall k :: 0 <= k < |b.externals| ==> m.externals.value[k] == ExternalInfoModel(b.externals[k])
    ensures m.reservations.None? <==> b.reservations == []
    ensures m.reservations.Some? ==>
              |m.reservations.value| == |b.reservations|
              && forall k :: 0 <= k < |b.reservations| ==> m.reservations.value[k] == ReservationInfoModel(b.reservations[k])
    ensures m.size.Null? <==> b.size.None?
    ensures m.used.Null? <==> b.used.None?
  {
    BlockModel(StringValue(b.name), StringValue(b.cidr), FromNil(Map(VnetInfoModel, b.vnets)),
               FromNil(Map(ExternalInfoModel, b.externals)), FromNil(Map(ReservationInfoModel, b.reservations)),
               FromPointer(b.size), FromPointer(b.used))
  }

  /**
   * `flattenSpaceInfo`: name and description copied; blocks converted one by one, in order,
   * and null when there are none; size and used null exactly when absent.
   */
  function SpaceInfoModel(s: SpaceInfo): (m: SpaceModel)
    ensures m.name == Known(s.name) && m.description == Known(s.description)
    ensures m.blocks.None? <==> s.blocks == []
    ensures m.blocks.Some? ==> |m.blocks.value| == |s.blocks|
                               && forall k :: 0 <= k < |s.blocks| ==> m.blocks.value[k] == BlockInfoModel(s.blocks[k])
    ensures m.size.Null? <==> s.size.None?
    ensures m.used.Null? <==> s.used.None?
  {
    SpaceModel(StringValue(s.name), StringValue(s.description), FromNil(Map(BlockInfoModel, s.blocks)),
               FromPointer(s.size), FromPointer(s.used))
  }

  // ---------------------------------------------------------------------------
  // The flatten functions, loop by loop
  // ---------------------------------------------------------------------------

  /** `flattenVnetInfo`, appending prefixes and subnets to slices that start nil. */
  method FlattenVnetInfo(v: VnetInfo) returns (m: VnetModel)
    ensures m == VnetInfoModel(v)
  {
    var prefixes: Option<seq<Value<string>>> := None;
    for i := 0 to |v.prefixes|
      invariant prefixes == FromNil(Map(StringValue, v.prefixes[..i]))
    {
      MapSnoc(StringValue, v.prefixes, i);
      FromNilSnoc(Map(StringValue, v.prefixes[..i]), StringValue(v.prefixes[i]));
      prefixes := Append(prefixes, StringValue(v.prefixes[i]));
    }
    var subnets: Option<seq<SubnetModel>> := None;
    for i := 0 to |v.subnets|
      invariant subnets == FromNil(Map(SubnetInfoModel, v.subnets[..i]))
    {
      MapSnoc(SubnetInfoModel, v.subnets, i);
      FromNilSnoc(Map(SubnetInfoModel, v.subnets[..i]), SubnetInfoModel(v.subnets[i]));
      subnets := Append(subnets, SubnetInfoModel(v.subnets[i]));
    }
    assert v.prefixes[..|v.prefixes|] == v.prefixes;
    assert v.subnets[..|v.subnets|] == v.subnets;
    m := VnetModel(FromPointer(v.name), StringValue(v.id), prefixes, subnets, FromPointer(v.resourceGroup),
                   FromPointer(v.subscriptionId), FromPointer(v.tenantId), FromPointer(v.size), FromPointer(v.used));
  }

  /** `flattenBlockInfo`, one range loop per list. */
  method FlattenBlockInfo(b: BlockInfo) returns (m: BlockModel)
    ensures m == BlockInfoModel(b)
  {
    var vnets: Option<seq<VnetModel>> := None;
    for i := 0 to |b.vnets|
      invariant vnets == FromNil(Map(VnetInfoModel, b.vnets[..i]))
    {
      var vnet := FlattenVnetInfo(b.vnets[i]);
      MapSnoc(VnetInfoModel, b.vnets, i);
      FromNilSnoc(Map(VnetInfoModel, b.vnets[..i]), vnet);
      vnets := Append(vnets, vnet);
    }
    var externals: Option<seq<ExternalModel>> := None;
    for i := 0 to |b.externals|
      invariant externals == FromNil(Map(ExternalInfoModel, b.externals[..i]))
    {
      MapSnoc(ExternalInfoModel, b.externals, i);
      FromNilSnoc(Map(ExternalInfoModel, b.externals[..i]), ExternalInfoModel(b.externals[i]));
      externals := Append(externals, ExternalInfoModel(b.externals[i]));
    }
    var reservations: Option<seq<ReservationModel>> := None;
    for i := 0 to |b.reservations|
      invariant reservations == FromNil(Map(ReservationInfoModel, b.reservations[..i]))
    {
      MapSnoc(ReservationInfoModel, b.reservations, i);
      FromNilSnoc(Map(ReservationInfoModel, b.reservations[..i]), ReservationInfoModel(b.reservations[i]));
      reservations := Append(reservations, ReservationInfoModel(b.reservations[i]));
    }
    assert b.vnets[..|b.vnets|] == b.vnets;
    assert b.externals[..|b.externals|] == b.externals;
    assert b.reservations[..|b.reservations|] == b.reservations;
    m := BlockModel(StringValue(b.name), StringValue(b.cidr), vnets, externals, reservations,
                    FromPointer(b.size), FromPointer(b.used));
  }

  /** `flattenSpaceInfo`, one range loop over the blocks. */
  method FlattenSpaceInfo(s: SpaceInfo) returns (m: SpaceModel)
    ensures m == SpaceInfoModel(s)
  {
    var blocks: Option<seq<BlockModel>> := None;
    for i := 0 to |s.blocks|
      invariant blocks == FromNil(Map(BlockInfoModel, s.blocks[..i]))
    {
      var block := FlattenBlockInfo(s.blocks[i]);
      MapSnoc(BlockInfoModel, s.blocks, i);
      FromNilSnoc(Map(BlockInfoModel, s.blocks[..i]), block);
      blocks := Append(blocks, block);
    }
    assert s.blocks[..|s.blocks|] == s.blocks;
    m := SpaceModel(StringValue(s.name), StringValue(s.description), blocks, FromPointer(s.size), FromPointer(s.used));
  }

  // ---------------------------------------------------------------------------
  // What the conversion keeps
  // ---------------------------------------------------------------------------

  /** Distinct subnets give distinct models: the conversion loses nothing. */
  lemma SubnetInfoModelInjective(a: SubnetInfo, b: SubnetInfo)
    requires SubnetInfoModel(a) == SubnetInfoModel(b)
    ensures a == b
  {
    assert a.size == b.size by { FromPointerInjective(a.size, b.size); }
    assert a.used == b.used by { FromPointerInjective(a.used, b.used); }
  }

  lemma FromPointerInjective<T>(p: Option<T>, q: Option<T>)
    requires FromPointer(p) == FromPointer(q)
    ensures p == q
  {
  }

  /** Mapping an injective conversion over two lists gives the same list only for the same lists. */
  lemma MapInjective<A, B>(f: A -> B, xs: seq<A>, ys: seq<A>)
    requires forall x, y :: f(x) == f(y) ==> x == y
    requires FromNil(Map(f, xs)) == FromNil(Map(f, ys))
    ensures xs == ys
  {
    assert |xs| == |ys|;
    forall k | 0 <= k < |xs|
      ensures xs[k] == ys[k]
    {
      assert Map(f, xs)[k] == Map(f, ys)[k];
    }
  }

  /** Distinct networks give distinct models: the conversion of a network loses nothing. */
  lemma VnetInfoModelInjective(a: VnetInfo, b: VnetInfo)
    requires VnetInfoModel(a) == VnetInfoModel(b)
    ensures a == b
  {
    forall x: SubnetInfo, y: SubnetInfo | SubnetInfoModel(x) == SubnetInfoModel(y)
      ensures x == y
    {
      SubnetInfoModelInjective(x, y);
    }
    MapInjective(SubnetInfoModel, a.subnets, b.subnets);
    MapInjective(StringValue, a.prefixes, b.prefixes);
    FromPointerInjective(a.name, b.name);
    FromPointerInjective(a.resourceGroup, b.resourceGroup);
    FromPointerInjective(a.subscriptionId, b.subscriptionId);
    FromPointerInjective(a.tenantId, b.tenantId);
    FromPointerInjective(a.size, b.size);
    FromPointerInjective(a.used, b.used);
  }

  /**
   * A reservation's model keeps its creation time only to the second: two reservations that
   * differ in the fraction of a second have the same model.
   */
  lemma ReservationInfoModelTruncates(r: ReservationInfo, fraction: real)
    requires r.createdOn >= 0.0 && r.createdOn.Floor as real == r.createdOn
    requires 0.0 <= fraction < 1.0
    ensures ReservationInfoModel(r.(createdOn := r.createdOn + fraction)) == ReservationInfoModel(r)
  {
    assert (r.createdOn + fraction).Floor == r.createdOn.Floor;
  }
}
