/**
 * The records the IPAM API exchanges (ipamclient/models.go), and how `encoding/json`
 * maps them to JSON objects through their field tags.
 *
 * Response records tag every field `omitempty`: an empty string, a zero number, a nil
 * pointer, an empty list or an empty map is left out of the object, and decoding a missing
 * key leaves Go's zero value. Request records have no `omitempty`, so every key is always
 * sent. Go matches keys case-insensitively when decoding; here keys match exactly.
 */
module IpamModels {
  import opened Wrappers
  import opened Json
  import opened GoSlices

  datatype Reservation = Reservation(
    id: string,
    space: string,
    block: string,
    cidr: string,
    description: string,
    createdOn: real,
    createdBy: string,
    settledOn: Option<real>,
    settledBy: Option<string>,
    status: string,
    tags: map<string, string>)

  /** A reservation as listed inside a block: settled fields are plain values. */
  datatype ReservationLite = ReservationLite(
    id: string,
    cidr: string,
    description: string,
    createdOn: real,
    createdBy: string,
    settledOn: real,
    settledBy: string,
    status: string)

  datatype ReservationRequest = ReservationRequest(
    size: int,
    description: string,
    reverseSearch: bool,
    smallestCidr: bool)

  datatype Space = Space(
    name: string,
    description: string,
    blocks: seq<Block>,
    size: Option<real>,
    used: Option<real>)

  datatype SpaceRequest = SpaceRequest(name: string, description: string)

  datatype Block = Block(
    name: string,
    cidr: string,
    vnets: seq<Vnet>,
    externals: seq<External>,
    reservations: seq<ReservationLite>,
    size: Option<real>,
    used: Option<real>)

  datatype Vnet = Vnet(
    name: Option<string>,
    id: string,
    prefixes: seq<string>,
    subnets: seq<Subnet>,
    resourceGroup: Option<string>,
    subscriptionId: Option<string>,
    tenantId: Option<string>,
    size: Option<real>,
    used: Option<real>)

  datatype Subnet = Subnet(name: string, prefix: string, size: Option<real>, used: Option<real>)

  datatype External = External(name: string, description: string, cidr: string)

  // ---------------------------------------------------------------------------
  // Encoding: a record is marshalled field by field, in declaration order; a field
  // tagged `omitempty` whose value is empty contributes no member.
  // ---------------------------------------------------------------------------

  /** One tagged field: its wire key and its JSON value, unless `omitempty` drops it. */
  datatype Field = Field(key: string, value: Option<Json>)

  /** The members of the object the fields marshal to. */
  function Members(fields: seq<Field>): map<string, Json>
    decreases |fields|
  {
    if fields == [] then map[]
    else
      var rest := Members(fields[1..]);
      if fields[0].value.Some? then rest[fields[0].key := fields[0].value.value] else rest
  }

  function Object(fields: seq<Field>): Json {
    JObject(Members(fields))
  }

  predicate DistinctKeys(fields: seq<Field>) {
    forall i, j :: 0 <= i < j < |fields| ==> fields[i].key != fields[j].key
  }

  function OmitEmptyString(key: string, s: string): Field {
    Field(key, if s == "" then None else Some(JString(s)))
  }

  function OmitEmptyNumber(key: string, x: real): Field {
    Field(key, if x == 0.0 then None else Some(JNumber(x)))
  }

  function OmitNilString(key: string, p: Option<string>): Field {
    Field(key, if p.None? then None else Some(JString(p.value)))
  }

  function OmitNilNumber(key: string, p: Option<real>): Field {
    Field(key, if p.None? then None else Some(JNumber(p.value)))
  }

  function StringMapJson(m: map<string, string>): Json {
    JObject(map k | k in m :: JString(m[k]))
  }

  function OmitEmptyStringMap(key: string, m: map<string, string>): Field {
    Field(key, if |m| == 0 then None else Some(StringMapJson(m)))
  }

  function OmitEmptyList<T>(key: string, xs: seq<T>, encode: T -> Json): Field {
    Field(key, if xs == [] then None else Some(JArray(Map(encode, xs))))
  }

  function StringJson(s: string): Json {
    JString(s)
  }

  function ReservationFields(r: Reservation): seq<Field> {
    [ OmitEmptyString("id", r.id), OmitEmptyString("space", r.space), OmitEmptyString("block", r.block),
      OmitEmptyString("cidr", r.cidr), OmitEmptyString("desc", r.description),
      OmitEmptyNumber("createdOn", r.createdOn), OmitEmptyString("createdBy", r.createdBy),
      OmitNilNumber("settledOn", r.settledOn), OmitNilString("settledBy", r.settledBy),
      OmitEmptyString("status", r.status), OmitEmptyStringMap("tag", r.tags) ]
  }

  function ReservationLiteFields(r: ReservationLite): seq<Field> {
    [ OmitEmptyString("id", r.id), OmitEmptyString("cidr", r.cidr), OmitEmptyString("desc", r.description),
      OmitEmptyNumber("createdOn", r.createdOn), OmitEmptyString("createdBy", r.createdBy),
      OmitEmptyNumber("settledOn", r.settledOn), OmitEmptyString("settledBy", r.settledBy),
      OmitEmptyString("status", r.status) ]
  }

  function ExternalFields(e: External): seq<Field> {
    [ OmitEmptyString("name", e.name), OmitEmptyString("desc", e.description), OmitEmptyString("cidr", e.cidr) ]
  }

  function SubnetFields(s: Subnet): seq<Field> {
    [ OmitEmptyString("name", s.name), OmitEmptyString("prefix", s.prefix),
      OmitNilNumber("size", s.size), OmitNilNumber("used", s.used) ]
  }

  function VnetFields(v: Vnet): seq<Field> {
    [ OmitNilString("name", v.name), OmitEmptyString("id", v.id),
      OmitEmptyList("prefixes", v.prefixes, StringJson), OmitEmptyList("subnets", v.subnets, EncodeSubnet),
      OmitNilString("resource_group", v.resourceGroup), OmitNilString("subscription_id", v.subscriptionId),
      OmitNilString("tenant_id", v.tenantId), OmitNilNumber("size", v.size), OmitNilNumber("used", v.used) ]
  }

  function BlockFields(b: Block): seq<Field> {
    [ OmitEmptyString("name", b.name), OmitEmptyString("cidr", b.cidr),
      OmitEmptyList("vnets", b.vnets, EncodeVnet), OmitEmptyList("externals", b.externals, EncodeExternal),
      OmitEmptyList("resv", b.reservations, EncodeReservationLite),
      OmitNilNumber("size", b.size), OmitNilNumber("used", b.used) ]
  }

  function SpaceFields(s: Space): seq<Field> {
    [ OmitEmptyString("name", s.name), OmitEmptyString("desc", s.description),
      OmitEmptyList("blocks", s.blocks, EncodeBlock), OmitNilNumber("size", s.size), OmitNilNumber("used", s.used) ]
  }

  function EncodeReservation(r: Reservation): Json { Object(ReservationFields(r)) }

  function EncodeReservationLite(r: ReservationLite): Json { Object(ReservationLiteFields(r)) }

  function EncodeExternal(e: External): Json { Object(ExternalFields(e)) }

  function EncodeSubnet(s: Subnet): Json { Object(SubnetFields(s)) }

  function EncodeVnet(v: Vnet): Json { Object(VnetFields(v)) }

  function EncodeBlock(b: Block): Json { Object(BlockFields(b)) }

  function EncodeSpace(s: Space): Json { Object(SpaceFields(s)) }

  /** The body of a reservation request: all four keys, whatever their values. */
  function EncodeReservationRequest(r: ReservationRequest): (j: Json)
    ensures j.JObject? && j.members.Keys == {"size", "desc", "reverse_search", "smallest_cidr"}
    ensures j.members["desc"] == JString(r.description)
    ensures j.members["size"] == JNumber(r.size as real)
    ensures j.members["reverse_search"] == JBool(r.reverseSearch) && j.members["smallest_cidr"] == JBool(r.smallestCidr)
  {
    JObject(map[
      "size" := JNumber(r.size as real),
      "desc" := JString(r.description),
      "reverse_search" := JBool(r.reverseSearch),
      "smallest_cidr" := JBool(r.smallestCidr)])
  }

  /** The body of a space request: both keys, even when empty. */
  function EncodeSpaceRequest(r: SpaceRequest): (j: Json)
    ensures j.JObject? && j.members.Keys == {"name", "desc"}
    ensures j.members["name"] == JString(r.name) && j.members["desc"] == JString(r.description)
  {
    JObject(map["name" := JString(r.name), "desc" := JString(r.description)])
  }

  // ---------------------------------------------------------------------------
  // Decoding into a zero-valued record: a missing key or a JSON null keeps the zero
  // value (nil for a pointer); a value of the wrong JSON type is an error.
  // ---------------------------------------------------------------------------

  function TypeError(key: string): string {
    "json: cannot unmarshal value of key \"" + key + "\" into its Go field"
  }

  function StringField(m: map<string, Json>, key: string): Result<string> {
    if key !in m then Ok("")
    else match m[key]
      case JNull => Ok("")
      case JString(s) => Ok(s)
      case _ => Err(TypeError(key))
  }

  function NumberField(m: map<string, Json>, key: string): Result<real> {
    if key !in m then Ok(0.0)
    else match m[key]
      case JNull => Ok(0.0)
      case JNumber(x) => Ok(x)
      case _ => Err(TypeError(key))
  }

  function StringPointerField(m: map<string, Json>, key: string): Result<Option<string>> {
    if key !in m then Ok(None)
    else match m[key]
      case JNull => Ok(None)
      case JString(s) => Ok(Some(s))
      case _ => Err(TypeError(key))
  }

  function NumberPointerField(m: map<string, Json>, key: string): Result<Option<real>> {
    if key !in m then Ok(None)
    else match m[key]
      case JNull => Ok(None)
      case JNumber(x) => Ok(Some(x))
      case _ => Err(TypeError(key))
  }

  function StringMapField(m: map<string, Json>, key: string): Result<map<string, string>> {
    if key !in m then Ok(map[])
    else match m[key]
      case JNull => Ok(map[])
      case JObject(ms) =>
        if forall k :: k in ms ==> ms[k].JString? then Ok(map k | k in ms :: ms[k].s)
        else Err(TypeError(key))
      case _ => Err(TypeError(key))
  }

  /** The elements of a JSON array decoded one by one; the first failure is the error. */
  function DecodeList<T>(items: seq<Json>, decode: Json -> Result<T>): (r: Result<seq<T>>)
    ensures r.Ok? ==> |r.value| == |items|
    decreases |items|
  {
    if items == [] then Ok([])
    else
      var x :- decode(items[0]);
      var rest :- DecodeList(items[1..], decode);
      Ok([x] + rest)
  }

  function ListField<T>(m: map<string, Json>, key: string, decode: Json -> Result<T>): Result<seq<T>> {
    if key !in m then Ok([])
    else match m[key]
      case JNull => Ok([])
      case JArray(items) => DecodeList(items, decode)
      case _ => Err(TypeError(key))
  }

  function DecodeString(j: Json): Result<string> {
    match j
    case JNull => Ok("")
    case JString(s) => Ok(s)
    case _ => Err(TypeError("[]"))
  }

  /** The fields of a reservation object up to its description, in declaration order. */
  function ReservationHead(m: map<string, Json>): Result<(string, string, string, string, string)> {
    var id :- StringField(m, "id");
    var space :- StringField(m, "space");
    var block :- StringField(m, "block");
    var cidr :- StringField(m, "cidr");
    var description :- StringField(m, "desc");
    Ok((id, space, block, cidr, description))
  }

  /** The fields of a reservation object after its description, in declaration order. */
  function ReservationTail(m: map<string, Json>): Result<(real, string, Option<real>, Option<string>, string, map<string, string>)> {
    var createdOn :- NumberField(m, "createdOn");
    var createdBy :- StringField(m, "createdBy");
    var settledOn :- NumberPointerField(m, "settledOn");
    var settledBy :- StringPointerField(m, "settledBy");
    var status :- StringField(m, "status");
    var tags :- StringMapField(m, "tag");
    Ok((createdOn, createdBy, settledOn, settledBy, status, tags))
  }

  function DecodeReservation(j: Json): Result<Reservation> {
    match j
    case JNull => Ok(Reservation("", "", "", "", "", 0.0, "", None, None, "", map[]))
    case JObject(m) =>
      var h :- ReservationHead(m);
      var t :- ReservationTail(m);
      Ok(Reservation(h.0, h.1, h.2, h.3, h.4, t.0, t.1, t.2, t.3, t.4, t.5))
    case _ => Err(TypeError("Reservation"))
  }

  function ReservationLiteHead(m: map<string, Json>): Result<(string, string, string, real)> {
    var id :- StringField(m, "id");
    var cidr :- StringField(m, "cidr");
    var description :- StringField(m, "desc");
    var createdOn :- NumberField(m, "createdOn");
    Ok((id, cidr, description, createdOn))
  }

  function ReservationLiteTail(m: map<string, Json>): Result<(string, real, string, string)> {
    var createdBy :- StringField(m, "createdBy");
    var settledOn :- NumberField(m, "settledOn");
    var settledBy :- StringField(m, "settledBy");
    var status :- StringField(m, "status");
    Ok((createdBy, settledOn, settledBy, status))
  }

  function DecodeReservationLite(j: Json): Result<ReservationLite> {
    match j
    case JNull => Ok(ReservationLite("", "", "", 0.0, "", 0.0, "", ""))
    case JObject(m) =>
      var h :- ReservationLiteHead(m);
      var t :- ReservationLiteTail(m);
      Ok(ReservationLite(h.0, h.1, h.2, h.3, t.0, t.1, t.2, t.3))
    case _ => Err(TypeError("ReservationLite"))
  }

  function DecodeExternal(j: Json): Result<External> {
    match j
    case JNull => Ok(External("", "", ""))
    case JObject(m) =>
      var name :- StringField(m, "name");
      var description :- StringField(m, "desc");
      var cidr :- StringField(m, "cidr");
      Ok(External(name, description, cidr))
    case _ => Err(TypeError("External"))
  }

  function DecodeSubnet(j: Json): Result<Subnet> {
    match j
    case JNull => Ok(Subnet("", "", None, None))
    case JObject(m) =>
      var name :- StringField(m, "name");
      var prefix :- StringField(m, "prefix");
      var size :- NumberPointerField(m, "size");
      var used :- NumberPointerField(m, "used");
      Ok(Subnet(name, prefix, size, used))
    case _ => Err(TypeError("Subnet"))
  }

  function VnetHead(m: map<string, Json>): Result<(Option<string>, string, seq<string>, seq<Subnet>)> {
    var name :- StringPointerField(m, "name");
    var id :- StringField(m, "id");
    var prefixes :- ListField(m, "prefixes", DecodeString);
    var subnets :- ListField(m, "subnets", DecodeSubnet);
    Ok((name, id, prefixes, subnets))
  }

  function VnetTail(m: map<string, Json>): Result<(Option<string>, Option<string>, Option<string>, Option<real>, Option<real>)> {
    var resourceGroup :- StringPointerField(m, "resource_group");
    var subscriptionId :- StringPointerField(m, "subscription_id");
    var tenantId :- StringPointerField(m, "tenant_id");
    var size :- NumberPointerField(m, "size");
    var used :- NumberPointerField(m, "used");
    Ok((resourceGroup, subscriptionId, tenantId, size, used))
  }

  function DecodeVnet(j: Json): Result<Vnet> {
    match j
    case JNull => Ok(Vnet(None, "", [], [], None, None, None, None, None))
    case JObject(m) =>
      var h :- VnetHead(m);
      var t :- VnetTail(m);
      Ok(Vnet(h.0, h.1, h.2, h.3, t.0, t.1, t.2, t.3, t.4))
    case _ => Err(TypeError("Vnet"))
  }

  function DecodeBlock(j: Json): Result<Block> {
    match j
    case JNull => Ok(Block("", "", [], [], [], None, None))
    case JObject(m) =>
      var name :- StringField(m, "name");
      var cidr :- StringField(m, "cidr");
      var vnets :- ListField(m, "vnets", DecodeVnet);
      var externals :- ListField(m, "externals", DecodeExternal);
      var reservations :- ListField(m, "resv", DecodeReservationLite);
      var size :- NumberPointerField(m, "size");
      var used :- NumberPointerField(m, "used");
      Ok(Block(name, cidr, vnets, externals, reservations, size, used))
    case _ => Err(TypeError("Block"))
  }

  function DecodeSpace(j: Json): Result<Space> {
    match j
    case JNull => Ok(Space("", "", [], None, None))
    case JObject(m) =>
      var name :- StringField(m, "name");
      var description :- StringField(m, "desc");
      var blocks :- ListField(m, "blocks", DecodeBlock);
      var size :- NumberPointerField(m, "size");
      var used :- NumberPointerField(m, "used");
      Ok(Space(name, description, blocks, size, used))
    case _ => Err(TypeError("Space"))
  }

  // ---------------------------------------------------------------------------
  // Round trips: decoding what encoding produced gives the record back, so the
  // `omitempty` tags lose nothing the records can hold.
  // ---------------------------------------------------------------------------

  /** A key none of the fields carries is not a member. */
  lemma {:induction false} MembersAbsent(fields: seq<Field>, key: string)
    requires forall j :: 0 <= j < |fields| ==> fields[j].key != key
    ensures key !in Members(fields)
    decreases |fields|
  {
    if fields != [] {
      MembersAbsent(fields[1..], key);
    }
  }

  /**
   * With distinct keys, each field is a member exactly when `omitempty` keeps it, and the
   * member holds the field's value.
   */
  lemma {:induction false} MembersAt(fields: seq<Field>, i: nat)
    requires DistinctKeys(fields) && i < |fields|
    ensures fields[i].key in Members(fields) <==> fields[i].value.Some?
    ensures fields[i].value.Some? ==> Members(fields)[fields[i].key] == fields[i].value.value
    decreases |fields|
  {
    if i == 0 {
      MembersAbsent(fields[1..], fields[0].key);
    } else {
      MembersAt(fields[1..], i - 1);
      assert fields[1..][i - 1] == fields[i];
    }
  }

  lemma {:induction false} DecodeListRoundTrip<T>(xs: seq<T>, encode: T -> Json, decode: Json -> Result<T>)
    requires forall i :: 0 <= i < |xs| ==> decode(encode(xs[i])) == Ok(xs[i])
    ensures DecodeList(Map(encode, xs), decode) == Ok(xs)
    decreases |xs|
  {
    if xs != [] {
      assert Map(encode, xs)[1..] == Map(encode, xs[1..]);
      DecodeListRoundTrip(xs[1..], encode, decode);
      assert [xs[0]] + xs[1..] == xs;
    }
  }

  // Each kind of field decodes back to the value it was encoded from.

  lemma StringAt(fs: seq<Field>, i: nat, s: string)
    requires DistinctKeys(fs) && i < |fs| && fs[i] == OmitEmptyString(fs[i].key, s)
    ensures StringField(Members(fs), fs[i].key) == Ok(s)
  {
    MembersAt(fs, i);
  }

  lemma NumberAt(fs: seq<Field>, i: nat, x: real)
    requires DistinctKeys(fs) && i < |fs| && fs[i] == OmitEmptyNumber(fs[i].key, x)
    ensures NumberField(Members(fs), fs[i].key) == Ok(x)
  {
    MembersAt(fs, i);
  }

  lemma StringPointerAt(fs: seq<Field>, i: nat, p: Option<string>)
    requires DistinctKeys(fs) && i < |fs| && fs[i] == OmitNilString(fs[i].key, p)
    ensures StringPointerField(Members(fs), fs[i].key) == Ok(p)
  {
    MembersAt(fs, i);
  }

  lemma NumberPointerAt(fs: seq<Field>, i: nat, p: Option<real>)
    requires DistinctKeys(fs) && i < |fs| && fs[i] == OmitNilNumber(fs[i].key, p)
    ensures NumberPointerField(Members(fs), fs[i].key) == Ok(p)
  {
    MembersAt(fs, i);
  }

  lemma ListAt<T>(fs: seq<Field>, i: nat, xs: seq<T>, encode: T -> Json, decode: Json -> Result<T>)
    requires DistinctKeys(fs) && i < |fs| && fs[i] == OmitEmptyList(fs[i].key, xs, encode)
    requires forall k :: 0 <= k < |xs| ==> decode(encode(xs[k])) == Ok(xs[k])
    ensures ListField(Members(fs), fs[i].key, decode) == Ok(xs)
  {
    MembersAt(fs, i);
    var key := fs[i].key;
    if xs == [] {
      assert key !in Members(fs);
    } else {
      assert Members(fs)[key] == JArray(Map(encode, xs));
      DecodeListRoundTrip(xs, encode, decode);
    }
  }

  lemma StringMapAt(fs: seq<Field>, i: nat, tags: map<string, string>)
    requires DistinctKeys(fs) && i < |fs| && fs[i] == OmitEmptyStringMap(fs[i].key, tags)
    ensures StringMapField(Members(fs), fs[i].key) == Ok(tags)
  {
    MembersAt(fs, i);
    if |tags| != 0 {
      var ms := map k | k in tags :: JString(tags[k]);
      assert (map k | k in ms :: ms[k].s) == tags;
    } else {
      assert tags == map[];
    }
  }

  // The wire keys of each record are distinct.

  lemma ReservationKeysDistinct(r: Reservation)
    ensures DistinctKeys(ReservationFields(r))
  {
  }

  lemma ReservationLiteKeysDistinct(r: ReservationLite)
    ensures DistinctKeys(ReservationLiteFields(r))
  {
  }

  lemma VnetKeysDistinct(v: Vnet)
    ensures DistinctKeys(VnetFields(v))
  {
  }

  lemma BlockKeysDistinct(b: Block)
    ensures DistinctKeys(BlockFields(b))
  {
  }

  lemma ReservationRoundTrip(r: Reservation)
    ensures DecodeReservation(EncodeReservation(r)) == Ok(r)
  {
    ReservationLeadingFields(r);
    ReservationTrailingFields(r);
  }

  lemma ReservationLeadingFields(r: Reservation)
    ensures ReservationHead(EncodeReservation(r).members) == Ok((r.id, r.space, r.block, r.cidr, r.description))
  {
    var fs := ReservationFields(r);
    ReservationKeysDistinct(r);
    StringAt(fs, 0, r.id);
    StringAt(fs, 1, r.space);
    StringAt(fs, 2, r.block);
    StringAt(fs, 3, r.cidr);
    StringAt(fs, 4, r.description);
  }

  lemma ReservationTrailingFields(r: Reservation)
    ensures ReservationTail(EncodeReservation(r).members)
            == Ok((r.createdOn, r.createdBy, r.settledOn, r.settledBy, r.status, r.tags))
  {
    var fs := ReservationFields(r);
    ReservationKeysDistinct(r);
    NumberAt(fs, 5, r.createdOn);
    StringAt(fs, 6, r.createdBy);
    NumberPointerAt(fs, 7, r.settledOn);
    StringPointerAt(fs, 8, r.settledBy);
    StringAt(fs, 9, r.status);
    StringMapAt(fs, 10, r.tags);
  }

  lemma ReservationLiteRoundTrip(r: ReservationLite)
    ensures DecodeReservationLite(EncodeReservationLite(r)) == Ok(r)
  {
    ReservationLiteLeadingFields(r);
    ReservationLiteTrailingFields(r);
  }

  lemma ReservationLiteLeadingFields(r: ReservationLite)
    ensures ReservationLiteHead(EncodeReservationLite(r).members) == Ok((r.id, r.cidr, r.description, r.createdOn))
  {
    var fs := ReservationLiteFields(r);
    ReservationLiteKeysDistinct(r);
    StringAt(fs, 0, r.id);
    StringAt(fs, 1, r.cidr);
    StringAt(fs, 2, r.description);
    NumberAt(fs, 3, r.createdOn);
  }

  lemma ReservationLiteTrailingFields(r: ReservationLite)
    ensures ReservationLiteTail(EncodeReservationLite(r).members) == Ok((r.createdBy, r.settledOn, r.settledBy, r.status))
  {
    var fs := ReservationLiteFields(r);
    ReservationLiteKeysDistinct(r);
    StringAt(fs, 4, r.createdBy);
    NumberAt(fs, 5, r.settledOn);
    StringAt(fs, 6, r.settledBy);
    StringAt(fs, 7, r.status);
  }

  lemma ExternalRoundTrip(e: External)
    ensures DecodeExternal(EncodeExternal(e)) == Ok(e)
  {
    var fs := ExternalFields(e);
    assert DistinctKeys(fs);
    StringAt(fs, 0, e.name);
    StringAt(fs, 1, e.description);
    StringAt(fs, 2, e.cidr);
  }

  lemma SubnetRoundTrip(s: Subnet)
    ensures DecodeSubnet(EncodeSubnet(s)) == Ok(s)
  {
    var fs := SubnetFields(s);
    assert DistinctKeys(fs);
    StringAt(fs, 0, s.name);
    StringAt(fs, 1, s.prefix);
    NumberPointerAt(fs, 2, s.size);
    NumberPointerAt(fs, 3, s.used);
  }

  lemma VnetRoundTrip(v: Vnet)
    ensures DecodeVnet(EncodeVnet(v)) == Ok(v)
  {
    VnetLeadingFields(v);
    VnetTrailingFields(v);
  }

  lemma VnetLeadingFields(v: Vnet)
    ensures VnetHead(EncodeVnet(v).members) == Ok((v.name, v.id, v.prefixes, v.subnets))
  {
    var fs := VnetFields(v);
    VnetKeysDistinct(v);
    forall k | 0 <= k < |v.subnets|
      ensures DecodeSubnet(EncodeSubnet(v.subnets[k])) == Ok(v.subnets[k])
    {
      SubnetRoundTrip(v.subnets[k]);
    }
    StringPointerAt(fs, 0, v.name);
    StringAt(fs, 1, v.id);
    ListAt(fs, 2, v.prefixes, StringJson, DecodeString);
    ListAt(fs, 3, v.subnets, EncodeSubnet, DecodeSubnet);
  }

  lemma VnetTrailingFields(v: Vnet)
    ensures VnetTail(EncodeVnet(v).members) == Ok((v.resourceGroup, v.subscriptionId, v.tenantId, v.size, v.used))
  {
    var fs := VnetFields(v);
    VnetKeysDistinct(v);
    StringPointerAt(fs, 4, v.resourceGroup);
    StringPointerAt(fs, 5, v.subscriptionId);
    StringPointerAt(fs, 6, v.tenantId);
    NumberPointerAt(fs, 7, v.size);
    NumberPointerAt(fs, 8, v.used);
  }

  lemma BlockRoundTrip(b: Block)
    ensures DecodeBlock(EncodeBlock(b)) == Ok(b)
  {
    BlockLeadingFields(b);
    BlockTrailingFields(b);
  }

  lemma BlockLeadingFields(b: Block)
    ensures var m := EncodeBlock(b).members;
      StringField(m, "name") == Ok(b.name) && StringField(m, "cidr") == Ok(b.cidr)
      && ListField(m, "vnets", DecodeVnet) == Ok(b.vnets)
  {
    var fs := BlockFields(b);
    BlockKeysDistinct(b);
    forall k | 0 <= k < |b.vnets|
      ensures DecodeVnet(EncodeVnet(b.vnets[k])) == Ok(b.vnets[k])
    {
      VnetRoundTrip(b.vnets[k]);
    }
    StringAt(fs, 0, b.name);
    StringAt(fs, 1, b.cidr);
    ListAt(fs, 2, b.vnets, EncodeVnet, DecodeVnet);
  }

  lemma BlockTrailingFields(b: Block)
    ensures var m := EncodeBlock(b).members;
      ListField(m, "externals", DecodeExternal) == Ok(b.externals)
      && ListField(m, "resv", DecodeReservationLite) == Ok(b.reservations)
      && NumberPointerField(m, "size") == Ok(b.size) && NumberPointerField(m, "used") == Ok(b.used)
  {
    var fs := BlockFields(b);
    BlockKeysDistinct(b);
    forall k | 0 <= k < |b.externals|
      ensures DecodeExternal(EncodeExternal(b.externals[k])) == Ok(b.externals[k])
    {
      ExternalRoundTrip(b.externals[k]);
    }
    forall k | 0 <= k < |b.reservations|
      ensures DecodeReservationLite(EncodeReservationLite(b.reservations[k])) == Ok(b.reservations[k])
    {
      ReservationLiteRoundTrip(b.reservations[k]);
    }
    ListAt(fs, 3, b.externals, EncodeExternal, DecodeExternal);
    ListAt(fs, 4, b.reservations, EncodeReservationLite, DecodeReservationLite);
    NumberPointerAt(fs, 5, b.size);
    NumberPointerAt(fs, 6, b.used);
  }

  lemma SpaceRoundTrip(s: Space)
    ensures DecodeSpace(EncodeSpace(s)) == Ok(s)
  {
    SpaceFieldsDecoded(s);
  }

  lemma SpaceKeysDistinct(s: Space)
    ensures DistinctKeys(SpaceFields(s))
  {
  }

  lemma SpaceFieldsDecoded(s: Space)
    ensures var m := EncodeSpace(s).members;
      StringField(m, "name") == Ok(s.name) && StringField(m, "desc") == Ok(s.description)
      && ListField(m, "blocks", DecodeBlock) == Ok(s.blocks)
      && NumberPointerField(m, "size") == Ok(s.size) && NumberPointerField(m, "used") == Ok(s.used)
  {
    var fs := SpaceFields(s);
    SpaceKeysDistinct(s);
    forall k | 0 <= k < |s.blocks|
      ensures DecodeBlock(EncodeBlock(s.blocks[k])) == Ok(s.blocks[k])
    {
      BlockRoundTrip(s.blocks[k]);
    }
    StringAt(fs, 0, s.name);
    StringAt(fs, 1, s.description);
    ListAt(fs, 2, s.blocks, EncodeBlock, DecodeBlock);
    NumberPointerAt(fs, 3, s.size);
    NumberPointerAt(fs, 4, s.used);
  }

  /** The wire keys that differ from the Go field names: `desc`, `tag` and `resv`. */
  lemma RenamedKeys(r: Reservation, b: Block)
    ensures "desc" in EncodeReservation(r).members <==> r.description != ""
    ensures "tag" in EncodeReservation(r).members <==> |r.tags| != 0
    ensures "resv" in EncodeBlock(b).members <==> b.reservations != []
  {
    ReservationKeysDistinct(r);
    MembersAt(ReservationFields(r), 4);
    MembersAt(ReservationFields(r), 10);
    BlockKeysDistinct(b);
    MembersAt(BlockFields(b), 4);
  }
}
