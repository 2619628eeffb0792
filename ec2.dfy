/** The EC2 service `VpcManager` drives, as a fallible provider.

    The cloud is a map from resource ids to resources, the tags of each resource,
    the log of every call made with its reply, and the next free id. A call fails
    when its position in the log is one of the injected faults or when EC2 would
    refuse it in the current state (a missing or wrong-kind id, a gateway that is
    not attached, a route table that still has associations, a VPC that still has
    dependents, a subnet outside its VPC or overlapping another). Otherwise it
    takes effect and is answered. Every call, failed or not, is logged. */
module Ec2 {
  import opened Base
  import opened Cidr
  import opened Records

  datatype Route = Route(destination: string, gateway: Id)

  datatype Resource =
    | Vpc(cidr: Block, dnsSupport: bool)
    | Gateway(attachedTo: Option<Id>)
    | RouteTable(vpc: Id, routes: seq<Route>)
    | Subnet(vpc: Id, cidr: Block)
    | Association(table: Id, subnet: Option<Id>, main: bool)

  /** The EC2 requests `VpcManager` makes. */
  datatype Op =
    | CreateVpc(cidr: string)
    | EnableDnsSupport(vpc: Id)
    | CreateTags(resource: Id, tags: seq<Tag>)
    | CreateInternetGateway
    | AttachInternetGateway(vpc: Id, gateway: Id)
    | CreateRouteTable(vpc: Id)
    | CreateRoute(table: Id, destination: string, gateway: Id)
    | CreateSubnet(vpc: Id, cidr: string)
    | AssociateRouteTable(subnet: Id, table: Id)
    | DisassociateRouteTable(association: Id)
    | DeleteSubnet(subnet: Id)
    | DeleteRouteTable(table: Id)
    | DetachInternetGateway(gateway: Id, vpc: Id)
    | DeleteInternetGateway(gateway: Id)
    | DeleteVpc(vpc: Id)
    | DescribeRouteTables(vpc: Id)
    | DescribeInternetGateways(vpc: Id)

  /** One association as `describe_route_tables` lists it. */
  datatype AssociationInfo = AssociationInfo(id: Id, main: bool)

  /** One route table as `describe_route_tables` lists it. */
  datatype TableInfo = TableInfo(id: Id, associations: seq<AssociationInfo>)

  datatype Reply =
    | Failed
    | Done
    | Created(id: Id)
    | RouteTables(tables: seq<TableInfo>)
    | InternetGateways(gateways: seq<Id>)

  datatype Call = Call(op: Op, reply: Reply)

  /** The state of the provider; `failing` holds the log positions at which a call
      is made to fail whatever it asks. */
  datatype Cloud = Cloud(
    live: map<Id, Resource>,
    tags: map<Id, seq<Tag>>,
    log: seq<Call>,
    nextId: nat,
    failing: set<nat>)

  /** Every live id was handed out earlier, so `nextId` is fresh. */
  predicate Valid(c: Cloud) {
    forall k :: k in c.live ==> k < c.nextId
  }

  predicate IsVpc(c: Cloud, id: Id) { id in c.live && c.live[id].Vpc? }
  predicate IsGateway(c: Cloud, id: Id) { id in c.live && c.live[id].Gateway? }
  predicate IsTable(c: Cloud, id: Id) { id in c.live && c.live[id].RouteTable? }
  predicate IsSubnet(c: Cloud, id: Id) { id in c.live && c.live[id].Subnet? }

  /** A route table is the main one of its VPC when a main association points at it. */
  predicate IsMainTable(c: Cloud, t: Id) {
    exists a :: a in c.live && c.live[a] == Association(t, None, true)
  }

  predicate HasAssociations(c: Cloud, t: Id) {
    exists a :: a in c.live && c.live[a].Association? && c.live[a].table == t
  }

  /** EC2 refuses to delete a VPC that still has subnets, route tables besides its
      main one, or an attached gateway. */
  predicate HasDependents(c: Cloud, v: Id) {
    exists k :: k in c.live &&
      match c.live[k]
      case Subnet(vpc, _) => vpc == v
      case RouteTable(vpc, _) => vpc == v && !IsMainTable(c, k)
      case Gateway(attachedTo) => attachedTo == Some(v)
      case _ => false
  }

  /** A new subnet must lie inside its VPC and overlap no other subnet of it. */
  predicate SubnetFits(c: Cloud, vpc: Id, b: Block)
    requires IsVpc(c, vpc)
  {
    var outer := c.live[vpc].cidr;
    && b.prefix <= 32 && outer.prefix <= 32
    && Within(b, outer)
    && forall k :: k in c.live && c.live[k].Subnet? && c.live[k].vpc == vpc ==>
         c.live[k].cidr.prefix <= 32 && Disjoint(b, c.live[k].cidr)
  }

  /** Whether EC2 accepts `op` in state `c`. */
  predicate Permitted(c: Cloud, op: Op) {
    match op
    case CreateVpc(cidr) => ParseCidr(cidr).Ok?
    case EnableDnsSupport(vpc) => IsVpc(c, vpc)
    case CreateTags(id, _) => id in c.live
    case CreateInternetGateway => true
    case AttachInternetGateway(vpc, g) => IsVpc(c, vpc) && g in c.live && c.live[g] == Gateway(None)
    case CreateRouteTable(vpc) => IsVpc(c, vpc)
    case CreateRoute(t, _, g) =>
      IsTable(c, t) && g in c.live && c.live[g] == Gateway(Some(c.live[t].vpc))
    case CreateSubnet(vpc, cidr) =>
      IsVpc(c, vpc) && ParseCidr(cidr).Ok? && SubnetFits(c, vpc, ParseCidr(cidr).value)
    case AssociateRouteTable(s, t) =>
      IsSubnet(c, s) && IsTable(c, t) && c.live[s].vpc == c.live[t].vpc
    case DisassociateRouteTable(a) => a in c.live && c.live[a].Association? && !c.live[a].main
    case DeleteSubnet(s) => IsSubnet(c, s)
    case DeleteRouteTable(t) => IsTable(c, t) && !HasAssociations(c, t)
    case DetachInternetGateway(g, vpc) => g in c.live && c.live[g] == Gateway(Some(vpc))
    case DeleteInternetGateway(g) => g in c.live && c.live[g] == Gateway(None)
    case DeleteVpc(v) => IsVpc(c, v) && !HasDependents(c, v)
    case DescribeRouteTables(_) => true
    case DescribeInternetGateways(_) => true
  }

  /** Drops resources, and their tags, from the cloud. */
  function Remove(c: Cloud, gone: set<Id>): (d: Cloud)
    ensures d.live.Keys == c.live.Keys - gone
    ensures forall k :: k in d.live ==> d.live[k] == c.live[k]
    ensures d.log == c.log && d.nextId == c.nextId && d.failing == c.failing
  {
    c.(live := map k | k in c.live && k !in gone :: c.live[k],
       tags := map k | k in c.tags && k !in gone :: c.tags[k])
  }

  function SubnetAssociations(c: Cloud, s: Id): set<Id> {
    set a | a in c.live && c.live[a].Association? && c.live[a].subnet == Some(s)
  }

  function VpcTables(c: Cloud, v: Id): set<Id> {
    set t | t in c.live && c.live[t].RouteTable? && c.live[t].vpc == v
  }

  function TableAssociations(c: Cloud, tables: set<Id>): set<Id> {
    set a | a in c.live && c.live[a].Association? && c.live[a].table in tables
  }

  /** The tag list after `create_tags` adds `t`: an existing tag with the same key
      takes the new value in place, otherwise the tag is appended. */
  function PutTag(tags: seq<Tag>, t: Tag): seq<Tag>
    decreases |tags|
  {
    if |tags| == 0 then [t]
    else if tags[0].key == t.key then [t] + tags[1..]
    else [tags[0]] + PutTag(tags[1..], t)
  }

  /** `create_tags` merges: each new tag is put in turn. */
  function MergeTags(tags: seq<Tag>, added: seq<Tag>): seq<Tag>
    decreases |added|
  {
    if |added| == 0 then tags
    else PutTag(MergeTags(tags, added[..|added| - 1]), added[|added| - 1])
  }

  /** The value of the first tag with key `key`. */
  function Lookup(tags: seq<Tag>, key: string): Option<string>
    decreases |tags|
  {
    if |tags| == 0 then None
    else if tags[0].key == key then Some(tags[0].value)
    else Lookup(tags[1..], key)
  }

  /** The value of the last tag with key `key`. */
  function LastValue(tags: seq<Tag>, key: string): Option<string>
    decreases |tags|
  {
    if |tags| == 0 then None
    else if tags[|tags| - 1].key == key then Some(tags[|tags| - 1].value)
    else LastValue(tags[..|tags| - 1], key)
  }

  lemma {:induction false} PutTagLookup(tags: seq<Tag>, t: Tag, key: string)
    ensures Lookup(PutTag(tags, t), key) == if key == t.key then Some(t.value) else Lookup(tags, key)
    decreases |tags|
  {
    if |tags| > 0 && tags[0].key != t.key {
      PutTagLookup(tags[1..], t, key);
      assert PutTag(tags, t)[1..] == PutTag(tags[1..], t);
    }
  }

  /** Merging keeps the old value of every key the request does not name and takes
      the request's (last) value for every key it does. */
  lemma {:induction false} MergeTagsLookup(tags: seq<Tag>, added: seq<Tag>, key: string)
    ensures Lookup(MergeTags(tags, added), key) ==
      if LastValue(added, key).Some? then LastValue(added, key) else Lookup(tags, key)
    decreases |added|
  {
    if |added| > 0 {
      MergeTagsLookup(tags, added[..|added| - 1], key);
      PutTagLookup(MergeTags(tags, added[..|added| - 1]), added[|added| - 1], key);
    }
  }

  /** Ids below `bound`, ascending, of the live route tables of `vpc`, each with its
      live associations. */
  function TablesBelow(c: Cloud, vpc: Id, n: nat): seq<TableInfo>
    decreases n
  {
    if n == 0 then []
    else
      var t := n - 1;
      TablesBelow(c, vpc, t) +
      (if t in c.live && c.live[t].RouteTable? && c.live[t].vpc == vpc
       then [TableInfo(t, AssociationsBelow(c, t, c.nextId))] else [])
  }

  function AssociationsBelow(c: Cloud, table: Id, n: nat): seq<AssociationInfo>
    decreases n
  {
    if n == 0 then []
    else
      var a := n - 1;
      AssociationsBelow(c, table, a) +
      (if a in c.live && c.live[a].Association? && c.live[a].table == table
       then [AssociationInfo(a, c.live[a].main)] else [])
  }

  /** Ids below `n`, ascending, of the live gateways attached to `vpc`. */
  function GatewaysBelow(c: Cloud, vpc: Id, n: nat): seq<Id>
    decreases n
  {
    if n == 0 then []
    else
      var g := n - 1;
      GatewaysBelow(c, vpc, g) +
      (if g in c.live && c.live[g] == Gateway(Some(vpc)) then [g] else [])
  }

  /** The reply to a permitted request. */
  function Answer(c: Cloud, op: Op): (r: Reply)
    ensures r != Failed
  {
    match op
    case CreateVpc(_) => Created(c.nextId)
    case CreateInternetGateway => Created(c.nextId)
    case CreateRouteTable(_) => Created(c.nextId)
    case CreateSubnet(_, _) => Created(c.nextId)
    case AssociateRouteTable(_, _) => Created(c.nextId)
    case DescribeRouteTables(vpc) => RouteTables(TablesBelow(c, vpc, c.nextId))
    case DescribeInternetGateways(vpc) => InternetGateways(GatewaysBelow(c, vpc, c.nextId))
    case _ => Done
  }

  /** The change a permitted request makes. Creating a VPC also creates its main
      route table and that table's main association. Deleting a subnet drops its
      route-table associations; deleting a VPC drops its (main) route tables. */
  function Effect(c: Cloud, op: Op): Cloud
    requires Permitted(c, op)
  {
    var id := c.nextId;
    match op
    case CreateVpc(cidr) =>
      c.(live := c.live[id := Vpc(ParseCidr(cidr).value, false)]
                       [id + 1 := RouteTable(id, [])]
                       [id + 2 := Association(id + 1, None, true)],
         nextId := id + 3)
    case EnableDnsSupport(vpc) => c.(live := c.live[vpc := c.live[vpc].(dnsSupport := true)])
    case CreateTags(r, added) =>
      c.(tags := c.tags[r := MergeTags(if r in c.tags then c.tags[r] else [], added)])
    case CreateInternetGateway => c.(live := c.live[id := Gateway(None)], nextId := id + 1)
    case AttachInternetGateway(vpc, g) => c.(live := c.live[g := Gateway(Some(vpc))])
    case CreateRouteTable(vpc) => c.(live := c.live[id := RouteTable(vpc, [])], nextId := id + 1)
    case CreateRoute(t, dest, g) =>
      c.(live := c.live[t := c.live[t].(routes := c.live[t].routes + [Route(dest, g)])])
    case CreateSubnet(vpc, cidr) =>
      c.(live := c.live[id := Subnet(vpc, ParseCidr(cidr).value)], nextId := id + 1)
    case AssociateRouteTable(s, t) =>
      c.(live := c.live[id := Association(t, Some(s), false)], nextId := id + 1)
    case DisassociateRouteTable(a) => Remove(c, {a})
    case DeleteSubnet(s) => Remove(c, {s} + SubnetAssociations(c, s))
    case DeleteRouteTable(t) => Remove(c, {t})
    case DetachInternetGateway(g, _) => c.(live := c.live[g := Gateway(None)])
    case DeleteInternetGateway(g) => Remove(c, {g})
    case DeleteVpc(v) =>
      var tables := VpcTables(c, v);
      Remove(c, {v} + tables + TableAssociations(c, tables))
    case DescribeRouteTables(_) => c
    case DescribeInternetGateways(_) => c
  }

  /** The reply to `op`: failed when injected or refused, otherwise its answer. */
  function Outcome(c: Cloud, op: Op): (r: Reply)
    ensures r.Failed? <==> |c.log| in c.failing || !Permitted(c, op)
  {
    if |c.log| in c.failing || !Permitted(c, op) then Failed else Answer(c, op)
  }

  /** One call: its effect when it succeeds, and its entry in the log either way. */
  function Apply(c: Cloud, op: Op): (d: Cloud)
    ensures d.log == c.log + [Call(op, Outcome(c, op))]
    ensures d.failing == c.failing
    ensures Outcome(c, op).Failed? ==> d.live == c.live && d.tags == c.tags && d.nextId == c.nextId
  {
    var r := Outcome(c, op);
    var e := if r.Failed? then c else Effect(c, op);
    e.(log := c.log + [Call(op, r)])
  }

  /** Requests that create a resource and answer with its id. */
  predicate IsCreation(op: Op) {
    op.CreateVpc? || op.CreateInternetGateway? || op.CreateRouteTable? ||
    op.CreateSubnet? || op.AssociateRouteTable?
  }

  /** A request other than a lookup either fails, or answers a creation with an id
      and anything else with plain success. */
  lemma OutcomeShape(c: Cloud, op: Op)
    requires !op.DescribeRouteTables? && !op.DescribeInternetGateways?
    ensures var r := Outcome(c, op);
      r.Failed? || (IsCreation(op) && r.Created?) || (!IsCreation(op) && r == Done)
  {
  }

  /** Requests that only take away: they remove resources or detach a gateway. */
  predicate IsRemoval(op: Op) {
    op.DisassociateRouteTable? || op.DeleteSubnet? || op.DeleteRouteTable? ||
    op.DetachInternetGateway? || op.DeleteInternetGateway? || op.DeleteVpc?
  }

  /** Every call keeps `nextId` fresh; a successful creation answers with the id it
      adds, which was not live before. */
  lemma ApplyValid(c: Cloud, op: Op)
    requires Valid(c)
    ensures var d := Apply(c, op);
      && Valid(d)
      && c.nextId <= d.nextId
      && (IsCreation(op) && !Outcome(c, op).Failed? ==>
            Outcome(c, op) == Created(c.nextId) && c.nextId !in c.live && c.nextId in d.live)
  {
    if !Outcome(c, op).Failed? {
      match op
      case DisassociateRouteTable(a) =>
      case DeleteSubnet(s) =>
      case DeleteRouteTable(t) =>
      case DeleteInternetGateway(g) =>
      case DeleteVpc(v) =>
      case _ =>
    }
  }

  /** A removal adds nothing and hands out no id; when it succeeds, the resource
      it names is gone (or, for a detach, the gateway is detached). */
  lemma RemovalShrinks(c: Cloud, op: Op)
    requires IsRemoval(op)
    ensures var d := Apply(c, op);
      && d.live.Keys <= c.live.Keys
      && d.nextId == c.nextId
      && (!Outcome(c, op).Failed? ==>
            match op
            case DisassociateRouteTable(a) => a !in d.live
            case DeleteSubnet(s) => s !in d.live
            case DeleteRouteTable(t) => t !in d.live
            case DetachInternetGateway(g, _) => g in d.live && d.live[g] == Gateway(None)
            case DeleteInternetGateway(g) => g !in d.live
            case DeleteVpc(v) => v !in d.live
            case _ => true)
  {
    if !Outcome(c, op).Failed? {
      match op
      case DisassociateRouteTable(a) =>
      case DeleteSubnet(s) =>
      case DeleteRouteTable(t) =>
      case DetachInternetGateway(g, _) =>
      case DeleteInternetGateway(g) =>
      case DeleteVpc(v) =>
    }
  }

  /** The EC2 client: the fields of the cloud, updated call by call. */
  class Provider {
    var live: map<Id, Resource>
    var tags: map<Id, seq<Tag>>
    var log: seq<Call>
    var nextId: nat
    const failing: set<nat>

    function State(): Cloud
      reads this
    {
      Cloud(live, tags, log, nextId, failing)
    }

    /** An empty account whose calls fail at the positions in `failing`. */
    constructor (failing: set<nat>)
      ensures State() == Cloud(map[], map[], [], 0, failing)
    {
      this.live, this.tags, this.log, this.nextId := map[], map[], [], 0;
      this.failing := failing;
    }

    /** One request: the reply, the new state and the log entry. */
    method Request(op: Op) returns (reply: Reply)
      modifies this
      ensures State() == Apply(old(State()), op)
      ensures reply == Outcome(old(State()), op)
    {
      var next := Apply(State(), op);
      reply := Outcome(State(), op);
      live, tags, log, nextId := next.live, next.tags, next.log, next.nextId;
    }
  }
}
