/**
 * The spaces data source of the SDK-v2 provider (azureipam/data_source_spaces.go).
 *
 * Each `parse*` function turns a pointer to a list of records into a list of attribute maps,
 * one per record, in order. The list starts as `make([]interface{}, 0)`, so it is empty, not
 * nil, when the pointer is nil or the list is empty. Here an attribute map is a record whose
 * fields are its keys, a pointer to a list is an `Option<seq<..>>` (`None` is nil), and an
 * attribute set to a nil slice or pointer is `None`.
 *
 * `expand` decides whether blocks, networks, externals and reservations are listed at all,
 * and `append_utilization` whether sizes and usage are.
 */
module LegacySpaces {
  import opened Wrappers
  import opened GoText
  import opened Tf
  import opened IpamModels
  import opened IpamClient
  import opened SpaceClient
  import opened SpacesDataSource

  datatype SubnetItem = SubnetItem(name: string, prefix: string, size: Option<real>, used: Option<real>)

  datatype VnetItem = VnetItem(
    name: Option<string>,
    id: string,
    prefixes: seq<string>,
    subnets: seq<SubnetItem>,
    resourceGroup: Option<string>,
    subscriptionId: Option<string>,
    tenantId: Option<string>,
    size: Option<real>,
    used: Option<real>)

  datatype ExternalItem = ExternalItem(name: string, description: string, cidr: string)

  /** A listed reservation; both times are rendered as RFC 1123 text of the truncated instant. */
  datatype ReservationLiteItem = ReservationLiteItem(
    id: string,
    cidr: string,
    description: string,
    createdOn: Timestamp,
    createdBy: string,
    settledOn: Timestamp,
    settledBy: string,
    status: string)

  datatype BlockItem = BlockItem(
    name: string,
    cidr: string,
    vnets: Option<seq<VnetItem>>,
    externals: Option<seq<ExternalItem>>,
    reservations: Option<seq<ReservationLiteItem>>,
    size: Option<real>,
    used: Option<real>)

  datatype SpaceItem = SpaceItem(
    name: string,
    description: string,
    blocks: Option<seq<BlockItem>>,
    size: Option<real>,
    used: Option<real>)

  // ---------------------------------------------------------------------------
  // What each parse function produces
  // ---------------------------------------------------------------------------

  /** The records behind a pointer to a list: none when it is nil. */
  function Listed<T>(p: Option<seq<T>>): seq<T> {
    p.GetOr([])
  }

  function SubnetItemOf(s: Subnet): SubnetItem {
    SubnetItem(s.name, s.prefix, s.size, s.used)
  }

  /** `parseSubnets`: one item per subnet, in order. */
  function SubnetItems(subnets: Option<seq<Subnet>>): (r: seq<SubnetItem>)
    ensures |r| == |Listed(subnets)|
    ensures forall k :: 0 <= k < |r| ==> r[k] == SubnetItemOf(Listed(subnets)[k])
  {
    var xs := Listed(subnets);
    seq(|xs|, k requires 0 <= k < |xs| => SubnetItemOf(xs[k]))
  }

  /** One network's item: every field as decoded, the subnets parsed. */
  function VnetItemOf(v: Vnet): (item: VnetItem)
    ensures item.id == v.id && item.name == v.name && item.prefixes == v.prefixes
    ensures item.subnets == SubnetItems(Some(v.subnets))
  {
    VnetItem(v.name, v.id, v.prefixes, SubnetItems(Some(v.subnets)), v.resourceGroup, v.subscriptionId,
             v.tenantId, v.size, v.used)
  }

  /** `parseVnets`: one item per network, in order. */
  function VnetItems(vnets: Option<seq<Vnet>>): (r: seq<VnetItem>)
    ensures |r| == |Listed(vnets)|
    ensures forall k :: 0 <= k < |r| ==> r[k] == VnetItemOf(Listed(vnets)[k])
  {
    var xs := Listed(vnets);
    seq(|xs|, k requires 0 <= k < |xs| => VnetItemOf(xs[k]))
  }

  function ExternalItemOf(e: External): ExternalItem {
    ExternalItem(e.name, e.description, e.cidr)
  }

  /** `parseExternals`: one item per external network, in order. */
  function ExternalItems(externals: Option<seq<External>>): (r: seq<ExternalItem>)
    ensures |r| == |Listed(externals)|
    ensures forall k :: 0 <= k < |r| ==> r[k] == ExternalItemOf(Listed(externals)[k])
  {
    var xs := Listed(externals);
    seq(|xs|, k requires 0 <= k < |xs| => ExternalItemOf(xs[k]))
  }

  function ReservationLiteItemOf(r: ReservationLite): ReservationLiteItem {
    ReservationLiteItem(r.id, r.cidr, r.description, UnixTime(r.createdOn), r.createdBy,
                        UnixTime(r.settledOn), r.settledBy, r.status)
  }

  /** `parseReservationsLite`: one item per reservation, in order. */
  function ReservationLiteItems(reservations: Option<seq<ReservationLite>>): (r: seq<ReservationLiteItem>)
    ensures |r| == |Listed(reservations)|
    ensures forall k :: 0 <= k < |r| ==> r[k] == ReservationLiteItemOf(Listed(reservations)[k])
  {
    var xs := Listed(reservations);
    seq(|xs|, k requires 0 <= k < |xs| => ReservationLiteItemOf(xs[k]))
  }

  /**
   * One block's item: name and CIDR always; its networks, externals and reservations only
   * when expanding (nil otherwise); size and usage only when utilization is asked for.
   */
  function BlockItemOf(b: Block, expand: bool, appendUtilization: bool): (item: BlockItem)
    ensures item.name == b.name && item.cidr == b.cidr
    ensures expand ==> item.vnets == Some(VnetItems(Some(b.vnets)))
                       && item.externals == Some(ExternalItems(Some(b.externals)))
                       && item.reservations == Some(ReservationLiteItems(Some(b.reservations)))
    ensures !expand ==> item.vnets.None? && item.externals.None? && item.reservations.None?
    ensures appendUtilization ==> item.size == b.size && item.used == b.used
    ensures !appendUtilization ==> item.size.None? && item.used.None?
  {
    BlockItem(b.name, b.cidr,
              if expand then Some(VnetItems(Some(b.vnets))) else None,
              if expand then Some(ExternalItems(Some(b.externals))) else None,
              if expand then Some(ReservationLiteItems(Some(b.reservations))) else None,
              if appendUtilization then b.size else None,
              if appendUtilization then b.used else None)
  }

  /** `parseBlocks`: one item per block, in order. */
  function BlockItems(blocks: Option<seq<Block>>, expand: bool, appendUtilization: bool): (r: seq<BlockItem>)
    ensures |r| == |Listed(blocks)|
    ensures forall k :: 0 <= k < |r| ==> r[k] == BlockItemOf(Listed(blocks)[k], expand, appendUtilization)
  {
    var xs := Listed(blocks);
    seq(|xs|, k requires 0 <= k < |xs| => BlockItemOf(xs[k], expand, appendUtilization))
  }

  /**
   * One space's item: name and description always; its blocks only when expanding (nil
   * otherwise); size and usage only when utilization is asked for.
   */
  function SpaceItemOf(s: Space, expand: bool, appendUtilization: bool): (item: SpaceItem)
    ensures item.name == s.name && item.description == s.description
    ensures expand ==> item.blocks == Some(BlockItems(Some(s.blocks), expand, appendUtilization))
    ensures !expand ==> item.blocks.None?
    ensures appendUtilization ==> item.size == s.size && item.used == s.used
    ensures !appendUtilization ==> item.size.None? && item.used.None?
  {
    SpaceItem(s.name, s.description,
              if expand then Some(BlockItems(Some(s.blocks), expand, appendUtilization)) else None,
              if appendUtilization then s.size else None,
              if appendUtilization then s.used else None)
  }

  /** `parseSpaces`: one item per space, in order. */
  function SpaceItems(spaces: Option<seq<Space>>, expand: bool, appendUtilization: bool): (r: seq<SpaceItem>)
    ensures |r| == |Listed(spaces)|
    ensures forall k :: 0 <= k < |r| ==> r[k] == SpaceItemOf(Listed(spaces)[k], expand, appendUtilization)
  {
    var xs := Listed(spaces);
    seq(|xs|, k requires 0 <= k < |xs| => SpaceItemOf(xs[k], expand, appendUtilization))
  }

  // ---------------------------------------------------------------------------
  // The parse functions, loop by loop
  // ---------------------------------------------------------------------------

  method ParseSubnets(subnets: Option<seq<Subnet>>) returns (results: seq<SubnetItem>)
    ensures results == SubnetItems(subnets)
  {
    results := [];
    if subnets.Some? {
      var xs := subnets.value;
      for i := 0 to |xs|
        invariant |results| == i && forall k :: 0 <= k < i ==> results[k] == SubnetItemOf(xs[k])
      {
        results := results + [SubnetItem(xs[i].name, xs[i].prefix, xs[i].size, xs[i].used)];
      }
    }
  }

  method ParseVnets(vnets: Option<seq<Vnet>>) returns (results: seq<VnetItem>)
    ensures results == VnetItems(vnets)
  {
    results := [];
    if vnets.Some? {
      var xs := vnets.value;
      for i := 0 to |xs|
        invariant |results| == i && forall k :: 0 <= k < i ==> results[k] == VnetItemOf(xs[k])
      {
        var v := xs[i];
        var subnets := ParseSubnets(Some(v.subnets));
        results := results + [VnetItem(v.name, v.id, v.prefixes, subnets, v.resourceGroup, v.subscriptionId,
                                       v.tenantId, v.size, v.used)];
      }
    }
  }

  method ParseExternals(externals: Option<seq<External>>) returns (results: seq<ExternalItem>)
    ensures results == ExternalItems(externals)
  {
    results := [];
    if externals.Some? {
      var xs := externals.value;
      for i := 0 to |xs|
        invariant |results| == i && forall k :: 0 <= k < i ==> results[k] == ExternalItemOf(xs[k])
      {
        results := results + [ExternalItem(xs[i].name, xs[i].description, xs[i].cidr)];
      }
    }
  }

  method ParseReservationsLite(reservations: Option<seq<ReservationLite>>) returns (results: seq<ReservationLiteItem>)
    ensures results == ReservationLiteItems(reservations)
  {
    results := [];
    if reservations.Some? {
      var xs := reservations.value;
      for i := 0 to |xs|
        invariant |results| == i && forall k :: 0 <= k < i ==> results[k] == ReservationLiteItemOf(xs[k])
      {
        var r := xs[i];
        results := results + [ReservationLiteItem(r.id, r.cidr, r.description, UnixTime(r.createdOn), r.createdBy,
                                                  UnixTime(r.settledOn), r.settledBy, r.status)];
      }
    }
  }

  method ParseBlocks(blocks: Option<seq<Block>>, expand: bool, appendUtilization: bool) returns (results: seq<BlockItem>)
    ensures results == BlockItems(blocks, expand, appendUtilization)
  {
    results := [];
    if blocks.Some? {
      var xs := blocks.value;
      for i := 0 to |xs|
        invariant |results| == i
        invariant forall k :: 0 <= k < i ==> results[k] == BlockItemOf(xs[k], expand, appendUtilization)
      {
        var b := xs[i];
        var vnets: Option<seq<VnetItem>> := None;
        var externals: Option<seq<ExternalItem>> := None;
        var reservations: Option<seq<ReservationLiteItem>> := None;
        if expand {
          var v := ParseVnets(Some(b.vnets));
          var e := ParseExternals(Some(b.externals));
          var r := ParseReservationsLite(Some(b.reservations));
          vnets, externals, reservations := Some(v), Some(e), Some(r);
        }
        var size := if appendUtilization then b.size else None;
        var used := if appendUtilization then b.used else None;
        results := results + [BlockItem(b.name, b.cidr, vnets, externals, reservations, size, used)];
      }
    }
  }

  method ParseSpaces(spaces: Option<seq<Space>>, expand: bool, appendUtilization: bool) returns (results: seq<SpaceItem>)
    ensures results == SpaceItems(spaces, expand, appendUtilization)
  {
    results := [];
    if spaces.Some? {
      var xs := spaces.value;
      for i := 0 to |xs|
        invariant |results| == i
        invariant forall k :: 0 <= k < i ==> results[k] == SpaceItemOf(xs[k], expand, appendUtilization)
      {
        var s := xs[i];
        var blocks: Option<seq<BlockItem>> := None;
        if expand {
          var b := ParseBlocks(Some(s.blocks), expand, appendUtilization);
          blocks := Some(b);
        }
        var size := if appendUtilization then s.size else None;
        var used := if appendUtilization then s.used else None;
        results := results + [SpaceItem(s.name, s.description, blocks, size, used)];
      }
    }
  }

  // ---------------------------------------------------------------------------
  // The read handler
  // ---------------------------------------------------------------------------

  /** What `dataSourceSpacesRead` leaves: the spaces attribute and the data source id, when set. */
  datatype SpacesRead = SpacesRead(sent: seq<Request>, spaces: Option<seq<SpaceItem>>, id: Option<string>,
                                   diagnostics: seq<Diagnostic>)

  /**
   * `dataSourceSpacesRead`: asks for every space with the configured flags and lists them;
   * the data source id is the current Unix time `now` in decimal. A failed request is the
   * only diagnostic, and nothing is set. `setError` is the error `d.Set("spaces", …)`
   * returns, if any: it becomes the only diagnostic, and the id is not set.
   */
  method Read(c: Client, expand: bool, appendUtilization: bool, answer: Result<seq<Space>>,
              setError: Option<string>, now: int) returns (r: SpacesRead)
    ensures r.sent == GetSpaces(c, expand, appendUtilization, answer).sent
    ensures answer.Err? ==> r.diagnostics == [Error(answer.error, "")] && r.spaces.None? && r.id.None?
    ensures answer.Ok? && setError.Some? ==>
              r.diagnostics == [Error(setError.value, "")] && r.spaces.None? && r.id.None?
    ensures answer.Ok? && setError.None? ==>
              r.diagnostics == [] && r.id == Some(IntText(now))
              && r.spaces == Some(SpaceItems(Some(answer.value), expand, appendUtilization))
  {
    var listed := GetSpaces(c, expand, appendUtilization, answer);
    if listed.result.Err? {
      return SpacesRead(listed.sent, None, None, [Error(listed.result.error, "")]);
    }
    var spaceItems := ParseSpaces(Some(listed.result.value), expand, appendUtilization);
    if setError.Some? {
      return SpacesRead(listed.sent, None, None, [Error(setError.value, "")]);
    }
    return SpacesRead(listed.sent, Some(spaceItems), Some(IntText(now)), []);
  }

  // ---------------------------------------------------------------------------
  // Against the plugin-framework data source
  // ---------------------------------------------------------------------------

  /**
   * With both flags set, a space's item carries what the plugin-framework data source's model
   * carries: the same name, description, size and usage, and one item per block. The one
   * difference is a space without blocks: an empty list here, a null list there.
   */
  lemma AgreesWithFrameworkModel(s: Space)
    ensures var item := SpaceItemOf(s, true, true);
            var model := SpaceLiteModel(s);
            model.name == Known(item.name) && model.description == Known(item.description)
            && model.size == FromPointer(item.size) && model.used == FromPointer(item.used)
            && item.blocks.Some? && |item.blocks.value| == |s.blocks|
            && (model.blocks.None? <==> item.blocks == Some([]))
            && (model.blocks.Some? ==> |model.blocks.value| == |item.blocks.value|)
  {
  }
}
