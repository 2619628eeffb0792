/** The VPC metadata `VpcManager` keeps in its table and hands back to callers,
    and the per-subnet choices `create_vpc` makes: how many subnets are public,
    which route table a subnet joins and which tag it carries. */
module Records {
  import opened Base
  import opened Text

  /** A resource identifier (`vpc-…`, `igw-…`, `rtb-…`, `subnet-…`, `rtbassoc-…`),
      abstracted to a number. */
  type Id = nat

  /** One `{"Key": key, "Value": value}` tag. */
  datatype Tag = Tag(key: string, value: string)

  /** The `RouteTables` attribute: `{"Public": …, "Private": …}`. */
  datatype RouteTablePair = RouteTablePair(public: Id, private: Id)

  /** A stored item. `VpcId` is the table's key, so every stored item carries it;
      each other attribute may be absent. */
  datatype Item = Item(
    vpcId: Id,
    region: Option<string>,
    subnetIds: Option<seq<Id>>,
    tags: Option<seq<Tag>>,
    igw: Option<Id>,
    routeTables: Option<RouteTablePair>)

  /** The normalised record returned to callers: `vpc_id`, `subnet_ids`, `tags`,
      `region`, `igw`, `route_tables`. */
  datatype VpcView = VpcView(
    vpcId: Id,
    subnetIds: seq<Id>,
    tags: seq<Tag>,
    region: string,
    igw: Option<Id>,
    routeTables: Option<RouteTablePair>)

  /** `_normalize_vpc_record`: no record gives no view; otherwise the key is copied,
      missing subnet ids and tags become empty lists, a missing region becomes the
      manager's region, and a missing gateway or route-table pair stays absent. */
  function Normalize(record: Option<Item>, defaultRegion: string): (v: Option<VpcView>)
    ensures v.Some? <==> record.Some?
    ensures v.Some? ==> v.value.vpcId == record.value.vpcId
  {
    match record
    case None => None
    case Some(item) =>
      Some(VpcView(
        item.vpcId,
        item.subnetIds.GetOr([]),
        item.tags.GetOr([]),
        item.region.GetOr(defaultRegion),
        item.igw,
        item.routeTables))
  }

  /** An item with every attribute present, holding exactly what `view` shows. */
  function Complete(view: VpcView): (item: Item)
    ensures item.vpcId == view.vpcId
  {
    Item(view.vpcId, Some(view.region), Some(view.subnetIds), Some(view.tags), view.igw, view.routeTables)
  }

  predicate HasAllListAttributes(item: Item) {
    item.region.Some? && item.subnetIds.Some? && item.tags.Some?
  }

  /** Normalisation loses nothing from an item whose list and region attributes are
      present, and `Complete` is its inverse on such items, whatever the default
      region. */
  lemma NormalizeComplete(view: VpcView, item: Item, defaultRegion: string)
    ensures Normalize(Some(Complete(view)), defaultRegion) == Some(view)
    ensures HasAllListAttributes(item) ==>
      Complete(Normalize(Some(item), defaultRegion).value) == item
  {
    var v := Normalize(Some(Complete(view)), defaultRegion).value;
    assert v.subnetIds == view.subnetIds && v.tags == view.tags && v.region == view.region;
  }

  /** Normalisation attribute by attribute: an absent subnet list or tag list
      becomes the empty list, an absent region becomes the manager's region, a
      present one is copied unchanged, and the gateway and route-table pair are
      copied as they are, absent or not. */
  lemma NormalizeDefaults(item: Item, defaultRegion: string)
    ensures var v := Normalize(Some(item), defaultRegion).value;
      && v.vpcId == item.vpcId
      && (item.subnetIds.None? ==> v.subnetIds == []) && (item.subnetIds.Some? ==> v.subnetIds == item.subnetIds.value)
      && (item.tags.None? ==> v.tags == []) && (item.tags.Some? ==> v.tags == item.tags.value)
      && (item.region.None? ==> v.region == defaultRegion) && (item.region.Some? ==> v.region == item.region.value)
      && v.igw == item.igw && v.routeTables == item.routeTables
  {
    var v := Normalize(Some(item), defaultRegion).value;
    assert v.subnetIds == item.subnetIds.GetOr([]) && v.tags == item.tags.GetOr([]);
  }

  /** The item `create_vpc` writes: `Tags` is `vpc_tags or []`. */
  function CreatedItem(vpc: Id, region: string, subnets: seq<Id>, vpcTags: Option<seq<Tag>>,
                       igw: Id, publicTable: Id, privateTable: Id): (item: Item)
    ensures item.vpcId == vpc && HasAllListAttributes(item)
  {
    Item(vpc, Some(region), Some(subnets), Some(TagsOrEmpty(vpcTags)), Some(igw),
         Some(RouteTablePair(publicTable, privateTable)))
  }

  /** Python's `tags or []`: absent and empty both give the empty list. */
  function TagsOrEmpty(tags: Option<seq<Tag>>): (r: seq<Tag>)
    ensures tags.Some? && |tags.value| > 0 ==> r == tags.value
    ensures tags.None? ==> r == []
    ensures |r| == 0 <==> tags.None? || |tags.value| == 0
  {
    if tags.Some? then tags.value else []
  }

  /** What `create_vpc` returns: the normalised item it wrote carries the same VPC,
      subnet ids in creation order, tags, gateway and route tables, and the
      manager's region. */
  lemma CreatedItemRoundTrip(vpc: Id, region: string, subnets: seq<Id>, vpcTags: Option<seq<Tag>>,
                             igw: Id, publicTable: Id, privateTable: Id, defaultRegion: string)
    ensures Normalize(Some(CreatedItem(vpc, region, subnets, vpcTags, igw, publicTable, privateTable)), defaultRegion) ==
      Some(VpcView(vpc, subnets, TagsOrEmpty(vpcTags), region, Some(igw), Some(RouteTablePair(publicTable, privateTable))))
  {
    var view := VpcView(vpc, subnets, TagsOrEmpty(vpcTags), region, Some(igw), Some(RouteTablePair(publicTable, privateTable)));
    assert CreatedItem(vpc, region, subnets, vpcTags, igw, publicTable, privateTable) == Complete(view);
    NormalizeComplete(view, Complete(view), defaultRegion);
  }

  /** The item after `update_item(Key=vpc, SET Tags = tags)`: the stored tags are
      replaced, or, when no item had that key, a new item holding only the key and
      the tags is created. */
  function WithTags(existing: Option<Item>, vpc: Id, tags: seq<Tag>): (item: Item)
    requires existing.Some? ==> existing.value.vpcId == vpc
    ensures item.vpcId == vpc && item.tags == Some(tags)
  {
    match existing
    case Some(current) => current.(tags := Some(tags))
    case None => Item(vpc, None, None, Some(tags), None, None)
  }

  /** The tag update replaces the tags wholesale and leaves every other field of the
      normalised record as it was. */
  lemma WithTagsReplaces(existing: Option<Item>, vpc: Id, tags: seq<Tag>, defaultRegion: string)
    requires existing.Some? ==> existing.value.vpcId == vpc
    ensures var v := Normalize(Some(WithTags(existing, vpc, tags)), defaultRegion).value;
      && v.tags == tags
      && (existing.Some? ==> v == Normalize(existing, defaultRegion).value.(tags := tags))
      && (existing.None? ==> v == VpcView(vpc, [], tags, defaultRegion, None, None))
  {
    if existing.None? {
      assert WithTags(existing, vpc, tags).subnetIds.GetOr([]) == [];
    }
  }

  // --------------------------------------------------- per-subnet choices

  /** `min(public_subnet_count if given else subnet_count // 2, subnet_count)`. */
  function EffectivePublicCount(total: int, requested: Option<int>): (n: int)
    ensures n <= total && n <= requested.GetOr(total / 2)
    ensures n == total || n == requested.GetOr(total / 2)
  {
    var wanted := requested.GetOr(total / 2);
    if wanted < total then wanted else total
  }

  /** Without an explicit count, the public half is rounded down: for a
      non-negative total the public subnets number `total // 2` and the private
      ones the rest, so there are never fewer private subnets than public ones. */
  lemma DefaultPublicHalf(total: int)
    requires total >= 0
    ensures var n := EffectivePublicCount(total, None);
      && n == total / 2
      && 0 <= n <= total - n <= n + 1
  {}

  /** `rt_public_id if idx < public_count else rt_private_id`. */
  function RouteTableFor(idx: nat, publicCount: int, publicTable: Id, privateTable: Id): (t: Id)
    ensures t == publicTable || t == privateTable
    ensures publicTable != privateTable ==> (t == publicTable <==> idx < publicCount)
  {
    if idx < publicCount then publicTable else privateTable
  }

  /** The number of the subnets `0 .. total-1` routed through the public table. */
  function PublicSubnets(total: nat, publicCount: int, publicTable: Id, privateTable: Id): nat
    decreases total
  {
    if total == 0 then 0
    else PublicSubnets(total - 1, publicCount, publicTable, privateTable)
         + (if RouteTableFor(total - 1, publicCount, publicTable, privateTable) == publicTable then 1 else 0)
  }

  /** With distinct tables, exactly `min(max(public_count, 0), total)` subnets are
      public and they are the first ones. */
  lemma {:induction false} PublicSubnetsCount(total: nat, publicCount: int, publicTable: Id, privateTable: Id)
    requires publicTable != privateTable
    ensures PublicSubnets(total, publicCount, publicTable, privateTable) ==
      if publicCount <= 0 then 0 else if publicCount < total then publicCount else total
    decreases total
  {
    if total > 0 {
      PublicSubnetsCount(total - 1, publicCount, publicTable, privateTable);
    }
  }

  /** Two subnets and no public count: subnet 0 is public and subnet 1 private. */
  lemma TwoSubnetsSplit(publicTable: Id, privateTable: Id)
    ensures var n := EffectivePublicCount(2, None);
      RouteTableFor(0, n, publicTable, privateTable) == publicTable &&
      RouteTableFor(1, n, publicTable, privateTable) == privateTable
  {
    assert EffectivePublicCount(2, None) == 1;
  }

  /** `{"Key": "Name", "Value": f"Subnet-{idx+1}"}`. */
  function DefaultSubnetTag(idx: nat): (t: Tag)
    ensures t.key == "Name"
  {
    Tag("Name", "Subnet-" + DecimalString(idx + 1))
  }

  /** `subnet_tags[idx] if subnet_tags and idx < len(subnet_tags) else` the default
      name tag. */
  function SubnetTag(idx: nat, subnetTags: Option<seq<Tag>>): (t: Tag)
    ensures subnetTags.Some? && idx < |subnetTags.value| ==> t == subnetTags.value[idx]
    ensures subnetTags.None? || idx >= |subnetTags.value| ==> t == DefaultSubnetTag(idx)
  {
    if subnetTags.Some? && |subnetTags.value| > 0 && idx < |subnetTags.value| then subnetTags.value[idx]
    else DefaultSubnetTag(idx)
  }

  /** Default subnet names never collide: distinct indexes give distinct tags. */
  lemma DefaultSubnetTagsDistinct(i: nat, j: nat)
    requires i != j
    ensures DefaultSubnetTag(i) != DefaultSubnetTag(j)
  {
    if DefaultSubnetTag(i) == DefaultSubnetTag(j) {
      var p := "Subnet-";
      var a, b := DecimalString(i + 1), DecimalString(j + 1);
      assert (p + a)[|p|..] == a;
      assert (p + b)[|p|..] == b;
      DecimalInjective(i + 1, j + 1);
    }
  }
}
