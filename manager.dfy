/** `VpcManager`: creates, reads, updates and deletes VPCs through the EC2
    provider, and keeps each VPC's metadata in the table. */
module Manager {
  import opened Base
  import opened Cidr
  import opened Records
  import opened Ec2
  import opened Plans
  import Store

  /** The ids `create_vpc` holds when something fails: what its rollback is given. */
  datatype Allocation = Allocation(
    vpc: Option<Id>,
    igw: Option<Id>,
    publicTable: Option<Id>,
    privateTable: Option<Id>,
    subnets: seq<Id>)

  const NoAllocation := Allocation(None, None, None, None, [])

  function IdSet(ids: seq<Id>): set<Id> {
    set i | 0 <= i < |ids| :: ids[i]
  }

  function OptionSet(id: Option<Id>): set<Id> {
    if id.Some? then {id.value} else {}
  }

  function AllocatedIds(a: Allocation): set<Id> {
    OptionSet(a.vpc) + OptionSet(a.igw) + OptionSet(a.publicTable) + OptionSet(a.privateTable) + IdSet(a.subnets)
  }

  /** The ids answered by the creating calls in `calls`, associations aside. */
  function CreatedIds(calls: seq<Call>): set<Id> {
    set i | 0 <= i < |calls| && calls[i].reply.Created? && !calls[i].op.AssociateRouteTable? :: calls[i].reply.id
  }

  /** The ids held before the subnets, as the union of those of each stage. */
  lemma NetworkIds(vpc: Option<Id>, igw: Option<Id>, publicTable: Option<Id>, privateTable: Option<Id>)
    ensures AllocatedIds(Allocation(vpc, igw, publicTable, privateTable, [])) ==
      (OptionSet(vpc) + OptionSet(igw)) + (OptionSet(publicTable) + OptionSet(privateTable))
  {
    assert IdSet([]) == {};
  }

  /** The log after two stretches of calls is the log with both appended. */
  lemma AppendAssoc<T>(a: seq<T>, first: seq<T>, second: seq<T>)
    ensures (a + first) + second == a + (first + second)
  {}

  lemma CreatedIdsConcat(a: seq<Call>, b: seq<Call>)
    ensures CreatedIds(a + b) == CreatedIds(a) + CreatedIds(b)
  {
    var ab := a + b;
    forall k | k in CreatedIds(a) ensures k in CreatedIds(ab) {
      var i :| 0 <= i < |a| && a[i].reply.Created? && !a[i].op.AssociateRouteTable? && a[i].reply.id == k;
      assert ab[i] == a[i];
    }
    forall k | k in CreatedIds(b) ensures k in CreatedIds(ab) {
      var i :| 0 <= i < |b| && b[i].reply.Created? && !b[i].op.AssociateRouteTable? && b[i].reply.id == k;
      assert ab[|a| + i] == b[i];
    }
    forall k | k in CreatedIds(ab) ensures k in CreatedIds(a) + CreatedIds(b) {
      var i :| 0 <= i < |ab| && ab[i].reply.Created? && !ab[i].op.AssociateRouteTable? && ab[i].reply.id == k;
      if i < |a| {
        assert ab[i] == a[i];
      } else {
        assert ab[i] == b[i - |a|];
      }
    }
  }

  lemma AllocatedSubnets(alloc: Allocation, subnets: seq<Id>)
    requires alloc.subnets == []
    ensures AllocatedIds(alloc.(subnets := subnets)) == AllocatedIds(alloc) + IdSet(subnets)
  {
    assert IdSet([]) == {};
  }

  lemma CreatedIdsEmpty()
    ensures CreatedIds([]) == {}
  {}

  lemma IdSetAppend(ids: seq<Id>, id: Id)
    ensures IdSet(ids + [id]) == IdSet(ids) + {id}
  {
    var longer := ids + [id];
    assert longer[|ids|] == id;
    forall k | k in IdSet(ids) ensures k in IdSet(longer) {
      var i :| 0 <= i < |ids| && ids[i] == k;
      assert longer[i] == ids[i];
    }
  }

  /** The answered calls that set up a VPC before its subnets: the VPC's, the
      gateway's, the public route table's and the private route table's. */
  function SetupCalls(cidr: string, vpcTags: Option<seq<Tag>>, vpc: Id, igw: Id, publicTable: Id, privateTable: Id): seq<Call> {
    (VpcCalls(cidr, vpcTags, vpc) + GatewayCalls(vpc, igw))
    + (PublicTableCalls(vpc, publicTable, igw) + PrivateTableCalls(vpc, privateTable))
  }

  /** Create the VPC, turn on DNS support, and tag it when tags were given. */
  function VpcCalls(cidr: string, vpcTags: Option<seq<Tag>>, vpc: Id): seq<Call> {
    [Call(Op.CreateVpc(cidr), Created(vpc)), Call(EnableDnsSupport(vpc), Done)]
    + (if vpcTags.Some? && |vpcTags.value| > 0 then [Call(CreateTags(vpc, vpcTags.value), Done)] else [])
  }

  /** Create the internet gateway and attach it to the VPC. */
  function GatewayCalls(vpc: Id, igw: Id): seq<Call> {
    [Call(CreateInternetGateway, Created(igw)), Call(AttachInternetGateway(vpc, igw), Done)]
  }

  /** The `Name` tags of the two route tables, and the destination of the public
      table's route to the gateway. */
  const PublicName := Tag("Name", "Public-RT")
  const PrivateName := Tag("Name", "Private-RT")
  const DefaultRoute := "0.0.0.0/0"

  /** Create the public route table, name it `Public-RT` and route `0.0.0.0/0`
      through the gateway. */
  function PublicTableCalls(vpc: Id, table: Id, igw: Id): seq<Call> {
    [Call(CreateRouteTable(vpc), Created(table)),
     Call(CreateTags(table, [PublicName]), Done),
     Call(CreateRoute(table, DefaultRoute, igw), Done)]
  }

  /** Create the private route table and name it `Private-RT`. */
  function PrivateTableCalls(vpc: Id, table: Id): seq<Call> {
    [Call(CreateRouteTable(vpc), Created(table)),
     Call(CreateTags(table, [PrivateName]), Done)]
  }

  /** Calls `3*idx` to `3*idx + 2` create subnet `idx` in `vpc` with block `cidr`,
      give it `tag` and associate it with `table`, each answered. */
  predicate SubnetCallsAt(calls: seq<Call>, idx: nat, vpc: Id, cidr: string, subnet: Id, tag: Tag, table: Id)
    requires 3 * idx + 3 <= |calls|
  {
    && calls[3 * idx] == Call(CreateSubnet(vpc, cidr), Created(subnet))
    && calls[3 * idx + 1] == Call(CreateTags(subnet, [tag]), Done)
    && calls[3 * idx + 2].op == AssociateRouteTable(subnet, table)
    && calls[3 * idx + 2].reply.Created?
  }

  /** The answered calls of the subnet loop: for each block, in order, the subnet
      is created, tagged with its tag, and associated with its route table. */
  predicate SubnetCalls(calls: seq<Call>, vpc: Id, cidrs: seq<string>, subnets: seq<Id>, subnetTags: Option<seq<Tag>>,
                        publicCount: int, publicTable: Id, privateTable: Id)
  {
    && |cidrs| == |subnets| && |calls| == 3 * |subnets|
    && forall idx :: 0 <= idx < |subnets| ==>
         SubnetCallsAt(calls, idx, vpc, cidrs[idx], subnets[idx], SubnetTag(idx, subnetTags),
                       RouteTableFor(idx, publicCount, publicTable, privateTable))
  }

  lemma SubnetCallsExtend(calls: seq<Call>, vpc: Id, cidrs: seq<string>, subnets: seq<Id>, subnetTags: Option<seq<Tag>>,
                          publicCount: int, publicTable: Id, privateTable: Id, cidr: string, subnet: Id, three: seq<Call>)
    requires SubnetCalls(calls, vpc, cidrs, subnets, subnetTags, publicCount, publicTable, privateTable)
    requires |three| == 3
    requires SubnetCallsAt(three, 0, vpc, cidr, subnet, SubnetTag(|subnets|, subnetTags),
                           RouteTableFor(|subnets|, publicCount, publicTable, privateTable))
    ensures SubnetCalls(calls + three, vpc, cidrs + [cidr], subnets + [subnet], subnetTags, publicCount, publicTable, privateTable)
  {
    var longer := calls + three;
    forall idx | 0 <= idx < |subnets| + 1
      ensures SubnetCallsAt(longer, idx, vpc, (cidrs + [cidr])[idx], (subnets + [subnet])[idx], SubnetTag(idx, subnetTags),
                            RouteTableFor(idx, publicCount, publicTable, privateTable))
    {
      if idx < |subnets| {
        assert SubnetCallsAt(calls, idx, vpc, cidrs[idx], subnets[idx], SubnetTag(idx, subnetTags),
                             RouteTableFor(idx, publicCount, publicTable, privateTable));
        assert longer[3 * idx] == calls[3 * idx];
        assert longer[3 * idx + 1] == calls[3 * idx + 1];
        assert longer[3 * idx + 2] == calls[3 * idx + 2];
      } else {
        assert longer[3 * idx] == three[0];
        assert longer[3 * idx + 1] == three[1];
        assert longer[3 * idx + 2] == three[2];
      }
    }
  }

  /** The set-up calls followed by the subnet calls make a successful provisioning. */
  lemma ProvisionedIntro(network: Block, rendered: string, subnetCount: int, publicSubnetCount: Option<int>, vpcTags: Option<seq<Tag>>,
                         subnetTags: Option<seq<Tag>>, region: string, alloc: Allocation, setup: seq<Call>, subnetCalls: seq<Call>)
    requires IsNetwork(network)
    requires alloc.vpc.Some? && alloc.igw.Some? && alloc.publicTable.Some? && alloc.privateTable.Some?
    requires setup == SetupCalls(rendered, vpcTags, alloc.vpc.value, alloc.igw.value,
                                 alloc.publicTable.value, alloc.privateTable.value)
    requires subnetCount <= Capacity(network.prefix, 32)
    requires NetworkSubnets(network, subnetCount).Ok?
    requires |alloc.subnets| == (if subnetCount < 0 then 0 else subnetCount)
    requires SubnetCalls(subnetCalls, alloc.vpc.value, NetworkSubnets(network, subnetCount).value,
                         alloc.subnets, subnetTags, EffectivePublicCount(subnetCount, publicSubnetCount),
                         alloc.publicTable.value, alloc.privateTable.value)
    ensures ProvisionedOn(network, rendered, subnetCount, publicSubnetCount, vpcTags, subnetTags, region, alloc,
                          CreatedItem(alloc.vpc.value, region, alloc.subnets, vpcTags, alloc.igw.value,
                                      alloc.publicTable.value, alloc.privateTable.value),
                          setup + subnetCalls)
  {
    assert (setup + subnetCalls)[..|setup|] == setup;
    assert (setup + subnetCalls)[|setup|..] == subnetCalls;
  }

  /** One more turn of the subnet loop extends its calls by the turn's three. */
  lemma SubnetCallsStep(calls: seq<Call>, vpc: Id, cidrs: seq<string>, idx: nat, subnets: seq<Id>,
                        subnetTags: Option<seq<Tag>>, publicCount: int, publicTable: Id, privateTable: Id,
                        subnet: Id, three: seq<Call>)
    requires idx < |cidrs|
    requires SubnetCalls(calls, vpc, cidrs[..idx], subnets, subnetTags, publicCount, publicTable, privateTable)
    requires |three| == 3
    requires SubnetCallsAt(three, 0, vpc, cidrs[idx], subnet, SubnetTag(idx, subnetTags),
                           RouteTableFor(idx, publicCount, publicTable, privateTable))
    ensures SubnetCalls(calls + three, vpc, cidrs[..idx + 1], subnets + [subnet], subnetTags, publicCount, publicTable, privateTable)
  {
    assert cidrs[..idx + 1] == cidrs[..idx] + [cidrs[idx]];
    SubnetCallsExtend(calls, vpc, cidrs[..idx], subnets, subnetTags, publicCount, publicTable, privateTable,
                      cidrs[idx], subnet, three);
  }

  // --------------------------------------------- what a run of calls hands out

  /** What a call adds to the ids `create_vpc` holds: the VPC's id, the gateway's,
      the first route table's as the public one and the next as the private one, and
      each subnet's in turn. A failed call, and any other call, adds nothing. */
  function Record(a: Allocation, call: Call): Allocation {
    if !call.reply.Created? then a
    else match call.op
      case CreateVpc(_) => a.(vpc := Some(call.reply.id))
      case CreateInternetGateway => a.(igw := Some(call.reply.id))
      case CreateRouteTable(_) =>
        if a.publicTable.None? then a.(publicTable := Some(call.reply.id)) else a.(privateTable := Some(call.reply.id))
      case CreateSubnet(_, _) => a.(subnets := a.subnets + [call.reply.id])
      case _ => a
  }

  /** The ids held after `calls`, starting from `a`. */
  function Collect(a: Allocation, calls: seq<Call>): Allocation
    decreases |calls|
  {
    if calls == [] then a else Record(Collect(a, calls[..|calls| - 1]), calls[|calls| - 1])
  }

  /** The ids held after `calls`, starting from nothing. */
  function AllocationOf(calls: seq<Call>): Allocation {
    Collect(NoAllocation, calls)
  }

  lemma CollectAppend(a: Allocation, calls: seq<Call>, call: Call)
    ensures Collect(a, calls + [call]) == Record(Collect(a, calls), call)
  {
    assert (calls + [call])[..|calls|] == calls;
  }

  lemma {:induction false} CollectConcat(a: Allocation, first: seq<Call>, second: seq<Call>)
    ensures Collect(a, first + second) == Collect(Collect(a, first), second)
    decreases |second|
  {
    if second == [] {
      assert first + second == first;
    } else {
      var front := second[..|second| - 1];
      CollectConcat(a, first, front);
      assert (first + second)[..|first + second| - 1] == first + front;
    }
  }

  /** The set-up calls hand out the VPC, the gateway, the public and the private
      route table, in those roles. */
  lemma SetupAllocation(cidr: string, vpcTags: Option<seq<Tag>>, vpc: Id, igw: Id, publicTable: Id, privateTable: Id)
    ensures AllocationOf(SetupCalls(cidr, vpcTags, vpc, igw, publicTable, privateTable)) ==
      Allocation(Some(vpc), Some(igw), Some(publicTable), Some(privateTable), [])
  {
    var v := VpcCalls(cidr, vpcTags, vpc);
    var g := GatewayCalls(vpc, igw);
    var p := PublicTableCalls(vpc, publicTable, igw);
    var q := PrivateTableCalls(vpc, privateTable);
    CollectConcat(NoAllocation, v + g, p + q);
    CollectConcat(NoAllocation, v, g);
    CollectConcat(Collect(NoAllocation, v + g), p, q);
    CollectAppend(NoAllocation, [], v[0]);
    CollectAppend(NoAllocation, [v[0]], v[1]);
    if |v| == 3 {
      CollectAppend(NoAllocation, [v[0], v[1]], v[2]);
      assert v == [v[0], v[1]] + [v[2]];
    } else {
      assert v == [v[0]] + [v[1]];
    }
    var a := Allocation(Some(vpc), None, None, None, []);
    assert Collect(a, g) == Allocation(Some(vpc), Some(igw), None, None, []) by {
      CollectAppend(a, [g[0]], g[1]);
      assert g == [g[0]] + [g[1]];
    }
    var b := Allocation(Some(vpc), Some(igw), None, None, []);
    assert Collect(b, p) == b.(publicTable := Some(publicTable)) by {
      CollectAppend(b, [p[0]], p[1]);
      CollectAppend(b, [p[0], p[1]], p[2]);
      assert p == [p[0], p[1]] + [p[2]];
      assert [p[0], p[1]] == [p[0]] + [p[1]];
    }
    var e := b.(publicTable := Some(publicTable));
    assert Collect(e, q) == e.(privateTable := Some(privateTable)) by {
      CollectAppend(e, [q[0]], q[1]);
      assert q == [q[0]] + [q[1]];
    }
  }

  // ------------------------------------------------- where a run stops

  lemma FrontSucceeded(cidr: string, vpcTags: Option<seq<Tag>>, vpc: Id, igw: Id)
    ensures AllSucceeded(VpcCalls(cidr, vpcTags, vpc))
    ensures AllSucceeded(VpcCalls(cidr, vpcTags, vpc) + GatewayCalls(vpc, igw))
  {
    var v := VpcCalls(cidr, vpcTags, vpc);
    var all := v + GatewayCalls(vpc, igw);
    forall i | 0 <= i < |all| ensures all[i].reply != Failed {
      if i < |v| {
        assert all[i] == v[i];
      }
    }
  }

  lemma PublicTableSucceeded(vpc: Id, table: Id, igw: Id)
    ensures AllSucceeded(PublicTableCalls(vpc, table, igw))
  {}


  /** A VPC stage that stopped short stops the VPC-and-gateway stretch short. */
  lemma FrontStopped(rendered: string, vpcTags: Option<seq<Tag>>, vpc: Option<Id>, calls: seq<Call>)
    requires StageRun(NoAllocation, calls, VpcCalls(rendered, vpcTags, IdOr(vpc)), vpc, false)
    ensures OptionSet(vpc) + OptionSet(None) == CreatedIds(calls)
    ensures AllocationOf(calls) == Allocation(vpc, None, None, None, [])
    ensures calls != [] && calls[0].op == Op.CreateVpc(rendered)
    ensures Halted(calls, OpsOf(VpcCalls(rendered, vpcTags, IdOr(vpc)) + GatewayCalls(IdOr(vpc), IdOr(None))))
  {
    HaltedFirst(calls, VpcCalls(rendered, vpcTags, IdOr(vpc)), GatewayCalls(IdOr(vpc), IdOr(None)));
  }

  /** A completed VPC stage followed by the gateway stage: the ids are the VPC and
      the gateway in their roles, and the stretch is complete or stopped short. */
  lemma FrontJoined(rendered: string, vpcTags: Option<seq<Tag>>, vpc: Id, first: seq<Call>,
                    igw: Option<Id>, ok: bool, second: seq<Call>)
    requires StageRun(NoAllocation, first, VpcCalls(rendered, vpcTags, vpc), Some(vpc), true)
    requires StageRun(AllocationOf(first), second, GatewayCalls(vpc, IdOr(igw)), igw, ok)
    ensures OptionSet(Some(vpc)) + OptionSet(igw) == CreatedIds(first + second)
    ensures AllocationOf(first + second) == Allocation(Some(vpc), igw, None, None, [])
    ensures first + second != [] && (first + second)[0].op == Op.CreateVpc(rendered)
    ensures ok ==> igw.Some? && first + second == VpcCalls(rendered, vpcTags, vpc) + GatewayCalls(vpc, igw.value)
    ensures !ok ==> Halted(first + second, OpsOf(VpcCalls(rendered, vpcTags, vpc) + GatewayCalls(vpc, IdOr(igw))))
  {
    CreatedIdsConcat(first, second);
    CollectConcat(NoAllocation, first, second);
    if !ok {
      FrontSucceeded(rendered, vpcTags, vpc, IdOr(igw));
      HaltedSecond(first, second, VpcCalls(rendered, vpcTags, vpc), GatewayCalls(vpc, IdOr(igw)));
    }
  }

  /** A public-table stage that stopped short stops the two-table stretch short. */
  lemma TablesStopped(vpc: Id, igw: Id, prior: Allocation, table: Option<Id>, calls: seq<Call>)
    requires prior.publicTable.None? && prior.privateTable.None?
    requires StageRun(prior, calls, PublicTableCalls(vpc, IdOr(table), igw), table, false)
    ensures OptionSet(table) + OptionSet(None) == CreatedIds(calls)
    ensures Collect(prior, calls) == prior.(publicTable := table, privateTable := None)
    ensures Halted(calls, OpsOf(PublicTableCalls(vpc, IdOr(table), igw) + PrivateTableCalls(vpc, IdOr(None))))
  {
    HaltedFirst(calls, PublicTableCalls(vpc, IdOr(table), igw), PrivateTableCalls(vpc, IdOr(None)));
  }

  /** A completed public-table stage followed by the private-table stage: each table
      id lands in its own role, and the stretch is complete or stopped short. */
  lemma TablesJoined(vpc: Id, igw: Id, prior: Allocation, publicTable: Id, first: seq<Call>,
                     privateTable: Option<Id>, ok: bool, second: seq<Call>)
    requires prior.publicTable.None? && prior.privateTable.None?
    requires StageRun(prior, first, PublicTableCalls(vpc, publicTable, igw), Some(publicTable), true)
    requires StageRun(Collect(prior, first), second, PrivateTableCalls(vpc, IdOr(privateTable)), privateTable, ok)
    ensures OptionSet(Some(publicTable)) + OptionSet(privateTable) == CreatedIds(first + second)
    ensures Collect(prior, first + second) == prior.(publicTable := Some(publicTable), privateTable := privateTable)
    ensures ok ==> privateTable.Some?
    ensures ok ==> first + second == PublicTableCalls(vpc, publicTable, igw) + PrivateTableCalls(vpc, privateTable.value)
    ensures !ok ==> Halted(first + second, OpsOf(PublicTableCalls(vpc, publicTable, igw) + PrivateTableCalls(vpc, IdOr(privateTable))))
  {
    CreatedIdsConcat(first, second);
    CollectConcat(prior, first, second);
    if !ok {
      PublicTableSucceeded(vpc, publicTable, igw);
      HaltedSecond(first, second, PublicTableCalls(vpc, publicTable, igw), PrivateTableCalls(vpc, IdOr(privateTable)));
    }
  }

  /** A VPC-and-gateway stretch that stopped short stops the set-up short. */
  lemma NetworkFrontStopped(rendered: string, vpcTags: Option<seq<Tag>>, vpc: Option<Id>, igw: Option<Id>, calls: seq<Call>)
    requires OptionSet(vpc) + OptionSet(igw) == CreatedIds(calls)
    requires Halted(calls, OpsOf(VpcCalls(rendered, vpcTags, IdOr(vpc)) + GatewayCalls(IdOr(vpc), IdOr(igw))))
    ensures AllocatedIds(Allocation(vpc, igw, None, None, [])) == CreatedIds(calls)
    ensures Halted(calls, OpsOf(SetupCalls(rendered, vpcTags, IdOr(vpc), IdOr(igw), IdOr(None), IdOr(None))))
  {
    NetworkIds(vpc, igw, None, None);
    HaltedFirst(calls, VpcCalls(rendered, vpcTags, IdOr(vpc)) + GatewayCalls(IdOr(vpc), IdOr(igw)),
                PublicTableCalls(IdOr(vpc), IdOr(None), IdOr(igw)) + PrivateTableCalls(IdOr(vpc), IdOr(None)));
  }

  /** A completed VPC-and-gateway stretch followed by the two tables: the ids are
      all four in their roles, and the set-up is complete or stopped short. */
  lemma NetworkJoined(rendered: string, vpcTags: Option<seq<Tag>>, vpc: Id, igw: Id, first: seq<Call>,
                      publicTable: Option<Id>, privateTable: Option<Id>, ok: bool, second: seq<Call>)
    requires first == VpcCalls(rendered, vpcTags, vpc) + GatewayCalls(vpc, igw)
    requires OptionSet(Some(vpc)) + OptionSet(Some(igw)) == CreatedIds(first)
    requires AllocationOf(first) == Allocation(Some(vpc), Some(igw), None, None, [])
    requires OptionSet(publicTable) + OptionSet(privateTable) == CreatedIds(second)
    requires Collect(AllocationOf(first), second) == AllocationOf(first).(publicTable := publicTable, privateTable := privateTable)
    requires ok ==> publicTable.Some? && privateTable.Some?
    requires ok ==> second == PublicTableCalls(vpc, publicTable.value, igw) + PrivateTableCalls(vpc, privateTable.value)
    requires !ok ==> Halted(second, OpsOf(PublicTableCalls(vpc, IdOr(publicTable), igw) + PrivateTableCalls(vpc, IdOr(privateTable))))
    ensures var alloc := Allocation(Some(vpc), Some(igw), publicTable, privateTable, []);
      AllocatedIds(alloc) == CreatedIds(first + second) && alloc == AllocationOf(first + second)
    ensures (first + second)[0].op == Op.CreateVpc(rendered)
    ensures ok ==> first + second == SetupCalls(rendered, vpcTags, vpc, igw, publicTable.value, privateTable.value)
    ensures !ok ==> Halted(first + second, OpsOf(SetupCalls(rendered, vpcTags, vpc, igw, IdOr(publicTable), IdOr(privateTable))))
  {
    CreatedIdsConcat(first, second);
    CollectConcat(NoAllocation, first, second);
    NetworkIds(Some(vpc), Some(igw), publicTable, privateTable);
    if !ok {
      FrontSucceeded(rendered, vpcTags, vpc, igw);
      HaltedSecond(first, second, VpcCalls(rendered, vpcTags, vpc) + GatewayCalls(vpc, igw),
                   PublicTableCalls(vpc, IdOr(publicTable), igw) + PrivateTableCalls(vpc, IdOr(privateTable)));
    }
  }

  /** `calls` made the requests of `plan` in order until the last one, which
      failed, every earlier call having succeeded: the run stopped at its first
      failure. */
  predicate Halted(calls: seq<Call>, plan: seq<Op>) {
    && 0 < |calls| <= |plan|
    && (forall i :: 0 <= i < |calls| ==> calls[i].op == plan[i])
    && AllSucceeded(calls[..|calls| - 1])
    && calls[|calls| - 1].reply.Failed?
  }

  /** `calls` made every request of `plan` in order, and each succeeded. */
  predicate Followed(calls: seq<Call>, plan: seq<Op>) {
    && |calls| == |plan|
    && (forall i :: 0 <= i < |calls| ==> calls[i].op == plan[i])
    && AllSucceeded(calls)
  }

  lemma HaltedLonger(calls: seq<Call>, plan: seq<Op>, longer: seq<Op>)
    requires Halted(calls, plan) && plan <= longer
    ensures Halted(calls, longer)
  {
    forall i | 0 <= i < |calls| ensures calls[i].op == longer[i] {
      assert longer[i] == plan[i];
    }
  }

  lemma HaltedAfter(done: seq<Call>, calls: seq<Call>, first: seq<Op>, second: seq<Op>)
    requires Followed(done, first) && Halted(calls, second)
    ensures Halted(done + calls, first + second)
  {
    var all := done + calls;
    assert all[..|all| - 1] == done + calls[..|calls| - 1];
    forall i | 0 <= i < |all| ensures all[i].op == (first + second)[i] {
      if i >= |done| {
        assert all[i] == calls[i - |done|];
      }
    }
  }

  lemma FollowedAfter(done: seq<Call>, calls: seq<Call>, first: seq<Op>, second: seq<Op>)
    requires Followed(done, first) && Followed(calls, second)
    ensures Followed(done + calls, first + second)
  {
    var all := done + calls;
    forall i | 0 <= i < |all| ensures all[i].op == (first + second)[i] && all[i].reply != Failed {
      if i >= |done| {
        assert all[i] == calls[i - |done|];
      }
    }
  }

  /** A run that stopped within the first stretch of a plan stopped within the
      whole plan. */
  lemma HaltedFirst(calls: seq<Call>, first: seq<Call>, second: seq<Call>)
    requires Halted(calls, OpsOf(first))
    ensures Halted(calls, OpsOf(first + second))
  {
    OpsOfConcat(first, second);
    HaltedLonger(calls, OpsOf(first), OpsOf(first + second));
  }

  /** A run that completed the first stretch of a plan and stopped within the
      second stopped within the whole plan. */
  lemma HaltedSecond(done: seq<Call>, calls: seq<Call>, first: seq<Call>, second: seq<Call>)
    requires done == first && AllSucceeded(first) && Halted(calls, OpsOf(second))
    ensures Halted(done + calls, OpsOf(first + second))
  {
    OpsOfConcat(done, second);
    HaltedAfter(done, calls, OpsOf(done), OpsOf(second));
  }

  // ------------------------------------------------- one stage of the set-up

  /** The id held, or `0` when none is. */
  function IdOr(held: Option<Id>): Id {
    if held.Some? then held.value else 0
  }

  /** A stage of the set-up: its first call creates a resource and its later calls
      configure it, answering `Done`. */
  predicate CreatesThenConfigures(expected: seq<Call>) {
    && expected != [] && expected[0].reply.Created? && !expected[0].op.AssociateRouteTable?
    && forall i :: 0 < i < |expected| ==> expected[i].reply == Done
  }

  /** `calls` ran the stage `expected` up to its first failure, starting from the
      ids `prior`: `held` is the id the stage created, if any, and `ok` tells whether
      every call succeeded, in which case the calls are exactly the stage's. */
  predicate StageRun(prior: Allocation, calls: seq<Call>, expected: seq<Call>, held: Option<Id>, ok: bool) {
    && expected != [] && calls != [] && calls[0].op == expected[0].op
    && OptionSet(held) == CreatedIds(calls)
    && Collect(prior, calls) == (if held.Some? then Record(prior, expected[0]) else prior)
    && (ok ==> held.Some? && calls == expected)
    && (!ok ==> Halted(calls, OpsOf(expected)))
  }

  /** A run of a stage that made the stage's first calls as planned and then one
      more, which failed or was the stage's last. */
  lemma StageStops(prior: Allocation, expected: seq<Call>, done: seq<Call>, last: Reply, held: Option<Id>, ok: bool)
    requires |done| < |expected| && done == expected[..|done|]
    requires CreatesThenConfigures(expected)
    requires last.Failed? || (last == expected[|done|].reply && |done| + 1 == |expected|)
    requires held == if done != [] || !last.Failed? then Some(expected[0].reply.id) else None
    requires ok == !last.Failed?
    ensures StageRun(prior, done + [Call(expected[|done|].op, last)], expected, held, ok)
  {
    var calls := done + [Call(expected[|done|].op, last)];
    if !last.Failed? {
      assert calls == expected;
    } else {
      assert calls[..|calls| - 1] == done;
      forall i | 0 <= i < |done| ensures done[i].reply != Failed {
        assert done[i] == expected[i];
      }
    }
    forall k | k in CreatedIds(calls) ensures held == Some(k) {
      var i :| 0 <= i < |calls| && calls[i].reply.Created? && !calls[i].op.AssociateRouteTable? && calls[i].reply.id == k;
      if i < |done| {
        assert calls[i] == expected[i];
      }
    }
    if held.Some? {
      assert calls[0].reply == expected[0].reply;
      assert calls[0].reply.id in CreatedIds(calls);
    }
    CollectAfterFirst(prior, calls);
  }

  /** Calls after the first that create nothing leave the ids as the first left them. */
  lemma {:induction false} CollectAfterFirst(prior: Allocation, calls: seq<Call>)
    requires 0 < |calls|
    requires forall i :: 0 < i < |calls| ==> calls[i].reply == Done || calls[i].reply.Failed?
    ensures Collect(prior, calls) == Record(prior, calls[0])
    decreases |calls|
  {
    if |calls| > 1 {
      CollectAfterFirst(prior, calls[..|calls| - 1]);
      assert calls[..|calls| - 1][0] == calls[0];
    } else {
      assert calls == [] + [calls[0]];
      CollectAppend(prior, [], calls[0]);
    }
  }

  lemma StageStopsFirst(prior: Allocation, expected: seq<Call>, last: Reply)
    requires CreatesThenConfigures(expected) && last.Failed?
    ensures StageRun(prior, [] + [Call(expected[0].op, last)], expected, None, false)
  {
    StageStops(prior, expected, [], last, None, false);
  }

  lemma StageStopsSecond(prior: Allocation, expected: seq<Call>, last: Reply)
    requires CreatesThenConfigures(expected) && 2 <= |expected|
    requires last.Failed? || (last == Done && |expected| == 2)
    ensures StageRun(prior, [] + [expected[0]] + [Call(expected[1].op, last)], expected,
                     Some(expected[0].reply.id), !last.Failed?)
  {
    assert [] + [expected[0]] == expected[..1];
    StageStops(prior, expected, expected[..1], last, Some(expected[0].reply.id), !last.Failed?);
  }

  lemma StageStopsThird(prior: Allocation, expected: seq<Call>, last: Reply)
    requires CreatesThenConfigures(expected) && 3 <= |expected|
    requires last.Failed? || (last == Done && |expected| == 3)
    ensures StageRun(prior, [] + [expected[0]] + [expected[1]] + [Call(expected[2].op, last)], expected,
                     Some(expected[0].reply.id), !last.Failed?)
  {
    assert [] + [expected[0]] + [expected[1]] == expected[..2];
    StageStops(prior, expected, expected[..2], last, Some(expected[0].reply.id), !last.Failed?);
  }

  /** The VPC stage stops at `create_vpc`, at `modify_vpc_attribute` or at
      `create_tags`, each call being made as `create_vpc` makes it. */
  lemma VpcStopsFirst(rendered: string, vpcTags: Option<seq<Tag>>, last: Reply)
    requires last.Failed?
    ensures StageRun(NoAllocation, [] + [Call(Op.CreateVpc(rendered), last)], VpcCalls(rendered, vpcTags, IdOr(None)), None, false)
  {
    StageStopsFirst(NoAllocation, VpcCalls(rendered, vpcTags, 0), last);
  }

  lemma VpcStopsSecond(rendered: string, vpcTags: Option<seq<Tag>>, vpc: Id, last: Reply)
    requires last.Failed? || (last == Done && !(vpcTags.Some? && |vpcTags.value| > 0))
    ensures StageRun(NoAllocation, [] + [Call(Op.CreateVpc(rendered), Created(vpc))] + [Call(EnableDnsSupport(vpc), last)],
                     VpcCalls(rendered, vpcTags, vpc), Some(vpc), !last.Failed?)
  {
    StageStopsSecond(NoAllocation, VpcCalls(rendered, vpcTags, vpc), last);
  }

  lemma VpcStopsThird(rendered: string, vpcTags: Option<seq<Tag>>, vpc: Id, last: Reply)
    requires vpcTags.Some? && |vpcTags.value| > 0
    requires last.Failed? || last == Done
    ensures StageRun(NoAllocation, [] + [Call(Op.CreateVpc(rendered), Created(vpc))] + [Call(EnableDnsSupport(vpc), Done)]
                                   + [Call(CreateTags(vpc, vpcTags.value), last)],
                     VpcCalls(rendered, vpcTags, vpc), Some(vpc), !last.Failed?)
  {
    StageStopsThird(NoAllocation, VpcCalls(rendered, vpcTags, vpc), last);
  }

  /** The gateway stage stops at its creation or at its attachment. */
  lemma GatewayStopsFirst(prior: Allocation, vpc: Id, last: Reply)
    requires last.Failed?
    ensures StageRun(prior, [] + [Call(CreateInternetGateway, last)], GatewayCalls(vpc, IdOr(None)), None, false)
  {
    StageStopsFirst(prior, GatewayCalls(vpc, 0), last);
  }

  lemma GatewayStopsSecond(prior: Allocation, vpc: Id, igw: Id, last: Reply)
    requires last.Failed? || last == Done
    ensures StageRun(prior, [] + [Call(CreateInternetGateway, Created(igw))] + [Call(AttachInternetGateway(vpc, igw), last)],
                     GatewayCalls(vpc, igw), Some(igw), !last.Failed?)
  {
    StageStopsSecond(prior, GatewayCalls(vpc, igw), last);
  }

  /** The public route table stage stops at its creation, at its name tag or at its
      default route. */
  lemma PublicTableStopsFirst(prior: Allocation, vpc: Id, igw: Id, last: Reply)
    requires last.Failed?
    ensures StageRun(prior, [] + [Call(CreateRouteTable(vpc), last)], PublicTableCalls(vpc, IdOr(None), igw), None, false)
  {
    StageStopsFirst(prior, PublicTableCalls(vpc, 0, igw), last);
  }

  lemma PublicTableStopsSecond(prior: Allocation, vpc: Id, table: Id, igw: Id, last: Reply)
    requires last.Failed?
    ensures StageRun(prior, [] + [Call(CreateRouteTable(vpc), Created(table))]
                              + [Call(CreateTags(table, [PublicName]), last)],
                     PublicTableCalls(vpc, table, igw), Some(table), false)
  {
    StageStopsSecond(prior, PublicTableCalls(vpc, table, igw), last);
  }

  lemma PublicTableStopsThird(prior: Allocation, vpc: Id, table: Id, igw: Id, last: Reply)
    requires last.Failed? || last == Done
    ensures StageRun(prior, [] + [Call(CreateRouteTable(vpc), Created(table))]
                              + [Call(CreateTags(table, [PublicName]), Done)]
                              + [Call(CreateRoute(table, DefaultRoute, igw), last)],
                     PublicTableCalls(vpc, table, igw), Some(table), !last.Failed?)
  {
    StageStopsThird(prior, PublicTableCalls(vpc, table, igw), last);
  }

  /** The private route table stage stops at its creation or at its name tag. */
  lemma PrivateTableStopsFirst(prior: Allocation, vpc: Id, last: Reply)
    requires last.Failed?
    ensures StageRun(prior, [] + [Call(CreateRouteTable(vpc), last)], PrivateTableCalls(vpc, IdOr(None)), None, false)
  {
    StageStopsFirst(prior, PrivateTableCalls(vpc, 0), last);
  }

  lemma PrivateTableStopsSecond(prior: Allocation, vpc: Id, table: Id, last: Reply)
    requires last.Failed? || last == Done
    ensures StageRun(prior, [] + [Call(CreateRouteTable(vpc), Created(table))]
                              + [Call(CreateTags(table, [PrivateName]), last)],
                     PrivateTableCalls(vpc, table), Some(table), !last.Failed?)
  {
    StageStopsSecond(prior, PrivateTableCalls(vpc, table), last);
  }

  /** `calls` ran one turn of the subnet loop up to its first failure, starting from
      the ids `prior`: `subnet` is the subnet's id once created, and `ok` tells
      whether the subnet was created, tagged and associated. */
  predicate TurnRun(prior: Allocation, calls: seq<Call>, vpc: Id, cidr: string, subnet: Option<Id>, tag: Tag, table: Id, ok: bool) {
    && OptionSet(subnet) == CreatedIds(calls)
    && Collect(prior, calls) == (if subnet.Some? then prior.(subnets := prior.subnets + [subnet.value]) else prior)
    && (ok ==> subnet.Some? && |calls| == 3 && SubnetCallsAt(calls, 0, vpc, cidr, subnet.value, tag, table))
    && (!ok ==> Halted(calls, TurnOps(vpc, cidr, IdOr(subnet), tag, table)))
  }

  /** The turn stops at `create_subnet`, at `create_tags` or at
      `associate_route_table`. */
  lemma TurnStopsFirst(prior: Allocation, vpc: Id, cidr: string, tag: Tag, table: Id, last: Reply)
    requires last.Failed?
    ensures TurnRun(prior, [] + [Call(Op.CreateSubnet(vpc, cidr), last)], vpc, cidr, None, tag, table, false)
  {
    var calls := [] + [Call(Op.CreateSubnet(vpc, cidr), last)];
    assert calls[..0] == [];
    CollectAppend(prior, [], calls[0]);
    assert calls == [] + [calls[0]];
  }

  lemma TurnStopsSecond(prior: Allocation, vpc: Id, cidr: string, subnet: Id, tag: Tag, table: Id, last: Reply)
    requires last.Failed?
    ensures TurnRun(prior, [] + [Call(Op.CreateSubnet(vpc, cidr), Created(subnet))] + [Call(CreateTags(subnet, [tag]), last)],
                    vpc, cidr, Some(subnet), tag, table, false)
  {
    var calls := [] + [Call(Op.CreateSubnet(vpc, cidr), Created(subnet))] + [Call(CreateTags(subnet, [tag]), last)];
    assert calls[..1] == [calls[0]];
    CollectAppend(prior, [], calls[0]);
    CollectAppend(prior, [calls[0]], calls[1]);
    assert [calls[0]] == [] + [calls[0]];
    CreatedIdsOfPair(calls);
  }

  lemma TurnStopsThird(prior: Allocation, vpc: Id, cidr: string, subnet: Id, tag: Tag, table: Id, last: Reply)
    requires last.Failed? || last.Created?
    ensures TurnRun(prior, [] + [Call(Op.CreateSubnet(vpc, cidr), Created(subnet))] + [Call(CreateTags(subnet, [tag]), Done)]
                           + [Call(AssociateRouteTable(subnet, table), last)],
                    vpc, cidr, Some(subnet), tag, table, !last.Failed?)
  {
    var calls := [] + [Call(Op.CreateSubnet(vpc, cidr), Created(subnet))] + [Call(CreateTags(subnet, [tag]), Done)]
                    + [Call(AssociateRouteTable(subnet, table), last)];
    assert calls[..2] == [calls[0], calls[1]];
    CollectAppend(prior, [], calls[0]);
    CollectAppend(prior, [calls[0]], calls[1]);
    CollectAppend(prior, [calls[0], calls[1]], calls[2]);
    assert [calls[0]] == [] + [calls[0]];
    assert [calls[0], calls[1]] == [calls[0]] + [calls[1]];
    assert calls == [calls[0], calls[1]] + [calls[2]];
    CreatedIdsOfTriple(calls);
  }

  lemma CreatedIdsOfPair(calls: seq<Call>)
    requires |calls| == 2 && calls[0].reply.Created? && !calls[0].op.AssociateRouteTable? && !calls[1].reply.Created?
    ensures CreatedIds(calls) == {calls[0].reply.id}
  {
    assert calls[0].reply.id in CreatedIds(calls);
  }

  lemma CreatedIdsOfTriple(calls: seq<Call>)
    requires |calls| == 3 && calls[0].reply.Created? && !calls[0].op.AssociateRouteTable?
    requires !calls[1].reply.Created? && calls[2].op.AssociateRouteTable?
    ensures CreatedIds(calls) == {calls[0].reply.id}
  {
    assert calls[0].reply.id in CreatedIds(calls);
  }

  /** Before any call, the cloud is as it was. */
  lemma RunAllNone(c: Cloud)
    ensures RunAll(c, OpsOf([])) == c
  {
    assert OpsOf([]) == [];
  }

  /** The id at `i`, or `0` for an id never handed out. */
  function IdAt(ids: seq<Id>, i: nat): Id {
    if i < |ids| then ids[i] else 0
  }

  /** The requests of one turn of the subnet loop. */
  function TurnOps(vpc: Id, cidr: string, subnet: Id, tag: Tag, table: Id): seq<Op> {
    [Op.CreateSubnet(vpc, cidr), CreateTags(subnet, [tag]), AssociateRouteTable(subnet, table)]
  }

  /** The requests the subnet loop plans for `cidrs`, naming the subnets handed out
      so far. */
  function SubnetPlan(vpc: Id, cidrs: seq<string>, subnets: seq<Id>, subnetTags: Option<seq<Tag>>,
                      publicCount: int, publicTable: Id, privateTable: Id): (plan: seq<Op>)
    ensures |plan| == 3 * |cidrs|
    decreases |cidrs|
  {
    if cidrs == [] then []
    else
      var n := |cidrs| - 1;
      SubnetPlan(vpc, cidrs[..n], subnets, subnetTags, publicCount, publicTable, privateTable)
      + TurnOps(vpc, cidrs[n], IdAt(subnets, n), SubnetTag(n, subnetTags),
                RouteTableFor(n, publicCount, publicTable, privateTable))
  }

  /** An id handed out after the planned blocks does not change their plan. */
  lemma {:induction false} SubnetPlanIds(vpc: Id, cidrs: seq<string>, subnets: seq<Id>, subnet: Id, subnetTags: Option<seq<Tag>>,
                                         publicCount: int, publicTable: Id, privateTable: Id)
    requires |cidrs| <= |subnets|
    ensures SubnetPlan(vpc, cidrs, subnets + [subnet], subnetTags, publicCount, publicTable, privateTable) ==
            SubnetPlan(vpc, cidrs, subnets, subnetTags, publicCount, publicTable, privateTable)
    decreases |cidrs|
  {
    if cidrs != [] {
      var n := |cidrs| - 1;
      SubnetPlanIds(vpc, cidrs[..n], subnets, subnet, subnetTags, publicCount, publicTable, privateTable);
      assert IdAt(subnets + [subnet], n) == IdAt(subnets, n);
    }
  }

  /** The plan for the first blocks is the start of the plan for all of them. */
  lemma {:induction false} SubnetPlanPrefix(vpc: Id, cidrs: seq<string>, k: nat, subnets: seq<Id>, subnetTags: Option<seq<Tag>>,
                                            publicCount: int, publicTable: Id, privateTable: Id)
    requires k <= |cidrs|
    ensures SubnetPlan(vpc, cidrs[..k], subnets, subnetTags, publicCount, publicTable, privateTable) <=
            SubnetPlan(vpc, cidrs, subnets, subnetTags, publicCount, publicTable, privateTable)
    decreases |cidrs|
  {
    if k == |cidrs| {
      assert cidrs[..k] == cidrs;
    } else {
      var n := |cidrs| - 1;
      assert cidrs[..n][..k] == cidrs[..k];
      SubnetPlanPrefix(vpc, cidrs[..n], k, subnets, subnetTags, publicCount, publicTable, privateTable);
    }
  }

  /** A completed turn extends the completed loop by one block. */
  lemma SubnetFollowStep(calls: seq<Call>, three: seq<Call>, vpc: Id, cidrs: seq<string>, idx: nat, subnets: seq<Id>,
                         subnet: Id, subnetTags: Option<seq<Tag>>, publicCount: int, publicTable: Id, privateTable: Id)
    requires idx < |cidrs| && |subnets| == idx
    requires Followed(calls, SubnetPlan(vpc, cidrs[..idx], subnets, subnetTags, publicCount, publicTable, privateTable))
    requires |three| == 3
    requires SubnetCallsAt(three, 0, vpc, cidrs[idx], subnet, SubnetTag(idx, subnetTags),
                           RouteTableFor(idx, publicCount, publicTable, privateTable))
    ensures Followed(calls + three, SubnetPlan(vpc, cidrs[..idx + 1], subnets + [subnet], subnetTags, publicCount, publicTable, privateTable))
  {
    assert cidrs[..idx + 1][..idx] == cidrs[..idx];
    SubnetPlanIds(vpc, cidrs[..idx], subnets, subnet, subnetTags, publicCount, publicTable, privateTable);
    FollowedAfter(calls, three, SubnetPlan(vpc, cidrs[..idx], subnets, subnetTags, publicCount, publicTable, privateTable),
                  TurnOps(vpc, cidrs[idx], subnet, SubnetTag(idx, subnetTags), RouteTableFor(idx, publicCount, publicTable, privateTable)));
  }

  /** A turn that stopped ends the loop, stopped within its plan for every block. */
  lemma SubnetHaltStep(calls: seq<Call>, three: seq<Call>, vpc: Id, cidrs: seq<string>, idx: nat, subnets: seq<Id>,
                       subnet: Option<Id>, subnetTags: Option<seq<Tag>>, publicCount: int, publicTable: Id, privateTable: Id)
    requires idx < |cidrs| && |subnets| == idx
    requires Followed(calls, SubnetPlan(vpc, cidrs[..idx], subnets, subnetTags, publicCount, publicTable, privateTable))
    requires Halted(three, TurnOps(vpc, cidrs[idx], IdOr(subnet), SubnetTag(idx, subnetTags),
                                   RouteTableFor(idx, publicCount, publicTable, privateTable)))
    ensures var held := if subnet.Some? then subnets + [subnet.value] else subnets;
      Halted(calls + three, SubnetPlan(vpc, cidrs, held, subnetTags, publicCount, publicTable, privateTable))
  {
    var held := if subnet.Some? then subnets + [subnet.value] else subnets;
    assert cidrs[..idx + 1][..idx] == cidrs[..idx];
    if subnet.Some? {
      SubnetPlanIds(vpc, cidrs[..idx], subnets, subnet.value, subnetTags, publicCount, publicTable, privateTable);
    }
    assert IdAt(held, idx) == IdOr(subnet);
    HaltedAfter(calls, three, SubnetPlan(vpc, cidrs[..idx], subnets, subnetTags, publicCount, publicTable, privateTable),
                TurnOps(vpc, cidrs[idx], IdOr(subnet), SubnetTag(idx, subnetTags), RouteTableFor(idx, publicCount, publicTable, privateTable)));
    SubnetPlanPrefix(vpc, cidrs, idx + 1, held, subnetTags, publicCount, publicTable, privateTable);
    HaltedLonger(calls + three, SubnetPlan(vpc, cidrs[..idx + 1], held, subnetTags, publicCount, publicTable, privateTable),
                 SubnetPlan(vpc, cidrs, held, subnetTags, publicCount, publicTable, privateTable));
  }

  /** One turn of the subnet loop, as the loop sees it: the ids held and the calls
      made grow by the turn's, and either the loop goes on to the next block having
      completed this one, or it ends stopped within its plan. */
  lemma SubnetTurnStep(prior: Allocation, vpc: Id, cidrs: seq<string>, idx: nat, subnets: seq<Id>, calls: seq<Call>,
                       three: seq<Call>, subnet: Option<Id>, created: bool, subnetTags: Option<seq<Tag>>,
                       publicCount: int, publicTable: Id, privateTable: Id)
    requires idx < |cidrs|
    requires IdSet(subnets) == CreatedIds(calls) && Collect(prior, calls) == prior.(subnets := prior.subnets + subnets)
    requires SubnetCalls(calls, vpc, cidrs[..idx], subnets, subnetTags, publicCount, publicTable, privateTable)
    requires Followed(calls, SubnetPlan(vpc, cidrs[..idx], subnets, subnetTags, publicCount, publicTable, privateTable))
    requires OptionSet(subnet) == CreatedIds(three)
    requires Collect(Collect(prior, calls), three) ==
      if subnet.Some? then Collect(prior, calls).(subnets := Collect(prior, calls).subnets + [subnet.value]) else Collect(prior, calls)
    requires created ==> (subnet.Some? && |three| == 3 &&
      SubnetCallsAt(three, 0, vpc, cidrs[idx], subnet.value, SubnetTag(idx, subnetTags),
                    RouteTableFor(idx, publicCount, publicTable, privateTable)))
    requires !created ==> Halted(three, TurnOps(vpc, cidrs[idx], IdOr(subnet), SubnetTag(idx, subnetTags),
                                                RouteTableFor(idx, publicCount, publicTable, privateTable)))
    ensures var held := if subnet.Some? then subnets + [subnet.value] else subnets;
      && IdSet(held) == CreatedIds(calls + three)
      && Collect(prior, calls + three) == prior.(subnets := prior.subnets + held)
      && (created ==> SubnetCalls(calls + three, vpc, cidrs[..idx + 1], held, subnetTags, publicCount, publicTable, privateTable))
      && (created ==> Followed(calls + three, SubnetPlan(vpc, cidrs[..idx + 1], held, subnetTags, publicCount, publicTable, privateTable)))
      && (!created ==> Halted(calls + three, SubnetPlan(vpc, cidrs, held, subnetTags, publicCount, publicTable, privateTable)))
  {
    CreatedIdsConcat(calls, three);
    CollectConcat(prior, calls, three);
    if subnet.Some? {
      IdSetAppend(subnets, subnet.value);
      AppendAssoc(prior.subnets, subnets, [subnet.value]);
    }
    if created {
      SubnetCallsStep(calls, vpc, cidrs, idx, subnets, subnetTags, publicCount, publicTable, privateTable, subnet.value, three);
      SubnetFollowStep(calls, three, vpc, cidrs, idx, subnets, subnet.value, subnetTags, publicCount, publicTable, privateTable);
    } else {
      SubnetHaltStep(calls, three, vpc, cidrs, idx, subnets, subnet, subnetTags, publicCount, publicTable, privateTable);
    }
  }

  /** How the remote part of `create_vpc` on a parsed network stops short: a call
      fails after every earlier call succeeded, each in its planned order (the
      set-up calls, then the subnet loop over `_calculate_subnets`' blocks); or every
      set-up call succeeded and the network has no room for the subnets, so
      `_calculate_subnets` raised before any subnet call. */
  predicate StoppedOn(network: Block, rendered: string, subnetCount: int, publicSubnetCount: Option<int>, vpcTags: Option<seq<Tag>>,
                      subnetTags: Option<seq<Tag>>, alloc: Allocation, calls: seq<Call>)
    requires IsNetwork(network)
  {
    var vpc, igw := IdOr(alloc.vpc), IdOr(alloc.igw);
    var publicTable, privateTable := IdOr(alloc.publicTable), IdOr(alloc.privateTable);
    var setup := SetupCalls(rendered, vpcTags, vpc, igw, publicTable, privateTable);
    var cidrs := if NetworkSubnets(network, subnetCount).Ok? then NetworkSubnets(network, subnetCount).value else [];
    || Halted(calls, OpsOf(setup) + SubnetPlan(vpc, cidrs, alloc.subnets, subnetTags,
                                               EffectivePublicCount(subnetCount, publicSubnetCount), publicTable, privateTable))
    || (&& subnetCount > Capacity(network.prefix, 32)
        && alloc.vpc.Some? && alloc.igw.Some? && alloc.publicTable.Some? && alloc.privateTable.Some?
        && alloc.subnets == [] && calls == setup)
  }

  /** Every set-up call answers with success. */
  lemma SetupSucceeded(cidr: string, vpcTags: Option<seq<Tag>>, vpc: Id, igw: Id, publicTable: Id, privateTable: Id)
    ensures AllSucceeded(SetupCalls(cidr, vpcTags, vpc, igw, publicTable, privateTable))
  {
    var v := VpcCalls(cidr, vpcTags, vpc);
    var g := GatewayCalls(vpc, igw);
    var p := PublicTableCalls(vpc, publicTable, igw);
    var q := PrivateTableCalls(vpc, privateTable);
    var all := (v + g) + (p + q);
    forall i | 0 <= i < |all| ensures all[i].reply != Failed {
      if i < |v| {
        assert all[i] == v[i];
      } else if i < |v| + |g| {
        assert all[i] == g[i - |v|];
      } else if i < |v| + |g| + |p| {
        assert all[i] == p[i - |v| - |g|];
      } else {
        assert all[i] == q[i - |v| - |g| - |p|];
      }
    }
  }

  /** A set-up that stopped short stops the whole run short. */
  lemma NetworkStopped(network: Block, rendered: string, subnetCount: int, publicSubnetCount: Option<int>, vpcTags: Option<seq<Tag>>,
                       subnetTags: Option<seq<Tag>>, alloc: Allocation, calls: seq<Call>)
    requires IsNetwork(network)
    requires Halted(calls, OpsOf(SetupCalls(rendered, vpcTags, IdOr(alloc.vpc), IdOr(alloc.igw),
                                            IdOr(alloc.publicTable), IdOr(alloc.privateTable))))
    ensures StoppedOn(network, rendered, subnetCount, publicSubnetCount, vpcTags, subnetTags, alloc, calls)
  {
    var setup := SetupCalls(rendered, vpcTags, IdOr(alloc.vpc), IdOr(alloc.igw),
                            IdOr(alloc.publicTable), IdOr(alloc.privateTable));
    var cidrs := if NetworkSubnets(network, subnetCount).Ok? then NetworkSubnets(network, subnetCount).value else [];
    var rest := SubnetPlan(IdOr(alloc.vpc), cidrs, alloc.subnets, subnetTags,
                           EffectivePublicCount(subnetCount, publicSubnetCount), IdOr(alloc.publicTable), IdOr(alloc.privateTable));
    HaltedLonger(calls, OpsOf(setup), OpsOf(setup) + rest);
  }

  /** A completed set-up followed by a subnet phase that stopped short, or that
      found no room for the subnets, stops the whole run short. */
  lemma AddSubnetsStopped(network: Block, rendered: string, subnetCount: int, publicSubnetCount: Option<int>, vpcTags: Option<seq<Tag>>,
                          subnetTags: Option<seq<Tag>>, alloc: Allocation, setup: seq<Call>, subnetCalls: seq<Call>)
    requires IsNetwork(network)
    requires alloc.vpc.Some? && alloc.igw.Some? && alloc.publicTable.Some? && alloc.privateTable.Some?
    requires setup == SetupCalls(rendered, vpcTags, alloc.vpc.value, alloc.igw.value,
                                 alloc.publicTable.value, alloc.privateTable.value)
    requires subnetCount > Capacity(network.prefix, 32) ==> alloc.subnets == [] && subnetCalls == []
    requires subnetCount <= Capacity(network.prefix, 32) ==>
      && NetworkSubnets(network, subnetCount).Ok?
      && Halted(subnetCalls, SubnetPlan(alloc.vpc.value, NetworkSubnets(network, subnetCount).value, alloc.subnets, subnetTags,
                                        EffectivePublicCount(subnetCount, publicSubnetCount), alloc.publicTable.value,
                                        alloc.privateTable.value))
    ensures StoppedOn(network, rendered, subnetCount, publicSubnetCount, vpcTags, subnetTags, alloc, setup + subnetCalls)
  {
    if subnetCount > Capacity(network.prefix, 32) {
      assert setup + subnetCalls == setup;
    } else {
      SetupSucceeded(rendered, vpcTags, alloc.vpc.value, alloc.igw.value, alloc.publicTable.value, alloc.privateTable.value);
      HaltedAfter(setup, subnetCalls, OpsOf(setup),
                  SubnetPlan(alloc.vpc.value, NetworkSubnets(network, subnetCount).value, alloc.subnets, subnetTags,
                             EffectivePublicCount(subnetCount, publicSubnetCount), alloc.publicTable.value, alloc.privateTable.value));
    }
  }

  /** The same, for the CIDR as given: it parsed, and the run on it stopped short. */
  predicate Stopped(cidr: string, subnetCount: int, publicSubnetCount: Option<int>, vpcTags: Option<seq<Tag>>,
                    subnetTags: Option<seq<Tag>>, alloc: Allocation, calls: seq<Call>)
  {
    && ParseCidr(cidr).Ok?
    && StoppedOn(ParseCidr(cidr).value, Render(ParseCidr(cidr).value), subnetCount, publicSubnetCount, vpcTags,
                 subnetTags, alloc, calls)
  }

  /** What a successful `create_vpc` did: the CIDR parsed and had room for the
      subnets, every id was handed out, the calls made were the set-up calls on the
      parsed network followed by the subnet calls on `_calculate_subnets`' blocks, and
      the stored item holds the ids, the region and `vpc_tags or []`. */
  predicate Provisioned(cidr: string, subnetCount: int, publicSubnetCount: Option<int>, vpcTags: Option<seq<Tag>>,
                        subnetTags: Option<seq<Tag>>, region: string, alloc: Allocation, item: Item, calls: seq<Call>)
  {
    && ParseCidr(cidr).Ok?
    && ProvisionedOn(ParseCidr(cidr).value, Render(ParseCidr(cidr).value), subnetCount, publicSubnetCount, vpcTags,
                     subnetTags, region, alloc, item, calls)
  }

  /** What a successful `create_vpc` did on the parsed network, rendered as
      `rendered`. */
  predicate ProvisionedOn(network: Block, rendered: string, subnetCount: int, publicSubnetCount: Option<int>, vpcTags: Option<seq<Tag>>,
                          subnetTags: Option<seq<Tag>>, region: string, alloc: Allocation, item: Item, calls: seq<Call>)
  {
    && IsNetwork(network)
    && NetworkSubnets(network, subnetCount).Ok?
    && subnetCount <= Capacity(network.prefix, 32)
    && alloc.vpc.Some? && alloc.igw.Some? && alloc.publicTable.Some? && alloc.privateTable.Some?
    && |alloc.subnets| == (if subnetCount < 0 then 0 else subnetCount)
    && item == CreatedItem(alloc.vpc.value, region, alloc.subnets, vpcTags, alloc.igw.value,
                           alloc.publicTable.value, alloc.privateTable.value)
    && var setup := SetupCalls(rendered, vpcTags, alloc.vpc.value, alloc.igw.value,
                               alloc.publicTable.value, alloc.privateTable.value);
       && |setup| <= |calls|
       && calls[..|setup|] == setup
       && SubnetCalls(calls[|setup|..], alloc.vpc.value, NetworkSubnets(network, subnetCount).value,
                      alloc.subnets, subnetTags, EffectivePublicCount(subnetCount, publicSubnetCount),
                      alloc.publicTable.value, alloc.privateTable.value)
  }

  /** `{"message": f"VPC {vpc_id} deleted successfully"}`. */
  datatype Confirmation = Deleted(vpc: Id)

  /** `{"vpc_id": vpc_id, "updated_tags": tags}`. */
  datatype UpdateReply = UpdateReply(vpcId: Id, updatedTags: Option<seq<Tag>>)

  /** The HTTP 500 `update_vpc` raises when a call fails. */
  datatype UpdateError = UpdateFailed

  class VpcManager {
    const region: string
    const ec2: Provider
    const table: Store.Table

    constructor (region: string, ec2: Provider, table: Store.Table)
      ensures this.region == region && this.ec2 == ec2 && this.table == table
    {
      this.region, this.ec2, this.table := region, ec2, table;
    }

    /** One boto3 call of `create_vpc`'s `try`: its reply is logged after the calls
        made so far; a reply that is not `Failed` is the id of what was created or
        the plain success of any other request. */
    method Invoke(op: Op, ghost base: Cloud, ghost calls: seq<Call>) returns (reply: Reply, ghost after: seq<Call>)
      requires ec2.log == base.log + calls && ec2.State() == RunAll(base, OpsOf(calls))
      requires !op.DescribeRouteTables? && !op.DescribeInternetGateways?
      modifies ec2
      ensures after == calls + [Call(op, reply)] && ec2.log == base.log + after
      ensures ec2.State() == RunAll(base, OpsOf(after))
      ensures reply.Failed? || (IsCreation(op) && reply.Created?) || (!IsCreation(op) && reply == Done)
    {
      OutcomeShape(ec2.State(), op);
      hide Apply, Outcome, Permitted, Effect, Answer;
      reply := ec2.Request(op);
      after := calls + [Call(op, reply)];
      assert OpsOf(after) == OpsOf(calls) + [op];
      RunAllAppend(base, OpsOf(calls), op);
    }

    /** `for sid in subnet_ids: delete_subnet(sid)`, each failure caught. */
    method DeleteSubnets(subnets: seq<Id>)
      modifies ec2
      ensures ec2.State() == RunAll(old(ec2.State()), SubnetDeletions(subnets))
    {
      for i := 0 to |subnets|
        invariant ec2.State() == RunAll(old(ec2.State()), SubnetDeletions(subnets[..i]))
      {
        assert SubnetDeletions(subnets[..i + 1]) == SubnetDeletions(subnets[..i]) + [DeleteSubnet(subnets[i])];
        RunAllAppend(old(ec2.State()), SubnetDeletions(subnets[..i]), DeleteSubnet(subnets[i]));
        var _ := ec2.Request(DeleteSubnet(subnets[i]));
      }
      assert subnets[..|subnets|] == subnets;
    }

    /** `_rollback_vpc`: delete the subnets, then the route tables that are set, then
        detach and delete the gateway when both it and the VPC are set, then delete
        the VPC when it is set; every failure is caught and the next step runs. */
    method RollbackVpc(vpc: Option<Id>, igw: Option<Id>, tables: seq<Option<Id>>, subnets: seq<Id>)
      modifies ec2
      ensures ec2.State() == Rollback(old(ec2.State()), vpc, igw, tables, subnets)
    {
      DeleteSubnets(subnets);
      DeleteTables(tables);
      RemoveGatewayOf(vpc, igw);
      if vpc.Some? {
        var _ := ec2.Request(Op.DeleteVpc(vpc.value));
      }
    }

    /** `for rt_id in route_table_ids: if rt_id: delete_route_table(rt_id)`, each
        failure caught. */
    method DeleteTables(tables: seq<Option<Id>>)
      modifies ec2
      ensures ec2.State() == RunAll(old(ec2.State()), TableDeletions(tables))
    {
      for i := 0 to |tables|
        invariant ec2.State() == RunAll(old(ec2.State()), TableDeletions(tables[..i]))
      {
        assert tables[..i + 1][..i] == tables[..i];
        if tables[i].Some? {
          assert TableDeletions(tables[..i + 1]) == TableDeletions(tables[..i]) + [DeleteRouteTable(tables[i].value)];
          RunAllAppend(old(ec2.State()), TableDeletions(tables[..i]), DeleteRouteTable(tables[i].value));
          var _ := ec2.Request(DeleteRouteTable(tables[i].value));
        } else {
          assert TableDeletions(tables[..i + 1]) == TableDeletions(tables[..i]);
        }
      }
      assert tables[..|tables|] == tables;
    }

    /** The rollback's gateway step: detach and delete in one `try`, when both ids
        are set. */
    method RemoveGatewayOf(vpc: Option<Id>, igw: Option<Id>)
      modifies ec2
      ensures ec2.State() == RemoveGateway(old(ec2.State()), vpc, igw)
    {
      if igw.Some? && vpc.Some? {
        var detached := ec2.Request(DetachInternetGateway(igw.value, vpc.value));
        if !detached.Failed? {
          var _ := ec2.Request(DeleteInternetGateway(igw.value));
        }
      }
    }

    /** The part of `create_vpc`'s `try` before the subnets: the VPC, its gateway
        and its two route tables. The first failed call ends it. */
    method CreateNetwork(rendered: string, vpcTags: Option<seq<Tag>>) returns (alloc: Allocation, ok: bool, ghost calls: seq<Call>)
      modifies ec2
      ensures ec2.log == old(ec2.log) + calls && ec2.State() == RunAll(old(ec2.State()), OpsOf(calls))
      ensures alloc.subnets == [] && AllocatedIds(alloc) == CreatedIds(calls) && alloc == AllocationOf(calls)
      ensures ok ==> alloc.vpc.Some? && alloc.igw.Some? && alloc.publicTable.Some? && alloc.privateTable.Some?
      ensures calls != [] && calls[0].op == Op.CreateVpc(rendered)
      ensures ok ==> calls == SetupCalls(rendered, vpcTags, alloc.vpc.value, alloc.igw.value,
                                         alloc.publicTable.value, alloc.privateTable.value)
      ensures !ok ==> Halted(calls, OpsOf(SetupCalls(rendered, vpcTags, IdOr(alloc.vpc), IdOr(alloc.igw),
                                                     IdOr(alloc.publicTable), IdOr(alloc.privateTable))))
    {
      hide Apply, Outcome, Permitted, Effect, Answer;
      var vpc, igw, front, frontCalls := CreateFront(rendered, vpcTags);
      calls, ok := frontCalls, false;
      if !front {
        alloc := Allocation(vpc, igw, None, None, []);
        NetworkFrontStopped(rendered, vpcTags, vpc, igw, calls);
        return;
      }
      var publicTable, privateTable, back;
      ghost var backCalls;
      publicTable, privateTable, back, backCalls := CreateTables(vpc.value, igw.value, AllocationOf(calls));
      RunAllCalls(old(ec2.State()), calls, backCalls);
      AppendAssoc(old(ec2.log), calls, backCalls);
      NetworkJoined(rendered, vpcTags, vpc.value, igw.value, calls, publicTable, privateTable, back, backCalls);
      calls, ok := calls + backCalls, back;
      alloc := Allocation(vpc, igw, publicTable, privateTable, []);
    }

    /** The VPC and its attached gateway. */
    method CreateFront(rendered: string, vpcTags: Option<seq<Tag>>) returns (vpc: Option<Id>, igw: Option<Id>, ok: bool, ghost calls: seq<Call>)
      modifies ec2
      ensures ec2.log == old(ec2.log) + calls && ec2.State() == RunAll(old(ec2.State()), OpsOf(calls))
      ensures OptionSet(vpc) + OptionSet(igw) == CreatedIds(calls)
      ensures AllocationOf(calls) == Allocation(vpc, igw, None, None, [])
      ensures calls != [] && calls[0].op == Op.CreateVpc(rendered)
      ensures ok ==> vpc.Some? && igw.Some?
      ensures ok ==> calls == VpcCalls(rendered, vpcTags, vpc.value) + GatewayCalls(vpc.value, igw.value)
      ensures !ok ==> Halted(calls, OpsOf(VpcCalls(rendered, vpcTags, IdOr(vpc)) + GatewayCalls(IdOr(vpc), IdOr(igw))))
    {
      hide Apply, Outcome, Permitted, Effect, Answer;
      var vpcOk;
      vpc, vpcOk, calls := CreateVpcResource(rendered, vpcTags);
      igw, ok := None, false;
      if !vpcOk {
        FrontStopped(rendered, vpcTags, vpc, calls);
        return;
      }
      ghost var igwCalls;
      igw, ok, igwCalls := CreateGateway(vpc.value, AllocationOf(calls));
      RunAllCalls(old(ec2.State()), calls, igwCalls);
      AppendAssoc(old(ec2.log), calls, igwCalls);
      FrontJoined(rendered, vpcTags, vpc.value, calls, igw, ok, igwCalls);
      calls := calls + igwCalls;
    }

    /** The public and the private route table. */
    method CreateTables(vpc: Id, igw: Id, ghost prior: Allocation)
      returns (publicTable: Option<Id>, privateTable: Option<Id>, ok: bool, ghost calls: seq<Call>)
      requires prior.publicTable.None? && prior.privateTable.None?
      modifies ec2
      ensures ec2.log == old(ec2.log) + calls && ec2.State() == RunAll(old(ec2.State()), OpsOf(calls))
      ensures OptionSet(publicTable) + OptionSet(privateTable) == CreatedIds(calls)
      ensures Collect(prior, calls) == prior.(publicTable := publicTable, privateTable := privateTable)
      ensures ok ==> publicTable.Some? && privateTable.Some?
      ensures ok ==> calls == PublicTableCalls(vpc, publicTable.value, igw) + PrivateTableCalls(vpc, privateTable.value)
      ensures !ok ==> Halted(calls, OpsOf(PublicTableCalls(vpc, IdOr(publicTable), igw) + PrivateTableCalls(vpc, IdOr(privateTable))))
    {
      hide Apply, Outcome, Permitted, Effect, Answer;
      var publicOk;
      publicTable, publicOk, calls := CreatePublicTable(vpc, igw, prior);
      privateTable, ok := None, false;
      if !publicOk {
        TablesStopped(vpc, igw, prior, publicTable, calls);
        return;
      }
      ghost var privateCalls;
      privateTable, ok, privateCalls := CreatePrivateTable(vpc, Collect(prior, calls));
      RunAllCalls(old(ec2.State()), calls, privateCalls);
      AppendAssoc(old(ec2.log), calls, privateCalls);
      TablesJoined(vpc, igw, prior, publicTable.value, calls, privateTable, ok, privateCalls);
      calls := calls + privateCalls;
    }

    /** Create the VPC on the rendered network, turn on DNS support, and tag it when
        tags were given. */
    method CreateVpcResource(rendered: string, vpcTags: Option<seq<Tag>>) returns (vpc: Option<Id>, ok: bool, ghost calls: seq<Call>)
      modifies ec2
      ensures ec2.log == old(ec2.log) + calls && ec2.State() == RunAll(old(ec2.State()), OpsOf(calls))
      ensures StageRun(NoAllocation, calls, VpcCalls(rendered, vpcTags, IdOr(vpc)), vpc, ok)
    {
      ghost var base := ec2.State();
      RunAllNone(base);
      hide Apply, Outcome, Permitted, Effect, Answer, RunAll, OpsOf, CreatedIds, Collect, StageRun, VpcCalls;
      vpc, ok, calls := None, false, [];
      var reply;
      reply, calls := Invoke(Op.CreateVpc(rendered), base, calls);
      if reply.Failed? {
        VpcStopsFirst(rendered, vpcTags, reply);
        return;
      }
      var id := reply.id;
      vpc := Some(id);
      reply, calls := Invoke(EnableDnsSupport(id), base, calls);
      if reply.Failed? || !(vpcTags.Some? && |vpcTags.value| > 0) {
        ok := !reply.Failed?;
        VpcStopsSecond(rendered, vpcTags, id, reply);
        return;
      }
      reply, calls := Invoke(CreateTags(id, vpcTags.value), base, calls);
      ok := !reply.Failed?;
      VpcStopsThird(rendered, vpcTags, id, reply);
    }

    /** Create the internet gateway and attach it to the VPC. */
    method CreateGateway(vpc: Id, ghost prior: Allocation) returns (igw: Option<Id>, ok: bool, ghost calls: seq<Call>)
      modifies ec2
      ensures ec2.log == old(ec2.log) + calls && ec2.State() == RunAll(old(ec2.State()), OpsOf(calls))
      ensures StageRun(prior, calls, GatewayCalls(vpc, IdOr(igw)), igw, ok)
    {
      ghost var base := ec2.State();
      RunAllNone(base);
      hide Apply, Outcome, Permitted, Effect, Answer, RunAll, OpsOf, CreatedIds, Collect, StageRun, GatewayCalls;
      igw, ok, calls := None, false, [];
      var reply;
      reply, calls := Invoke(CreateInternetGateway, base, calls);
      if reply.Failed? {
        GatewayStopsFirst(prior, vpc, reply);
        return;
      }
      var id := reply.id;
      igw := Some(id);
      reply, calls := Invoke(AttachInternetGateway(vpc, id), base, calls);
      ok := !reply.Failed?;
      GatewayStopsSecond(prior, vpc, id, reply);
    }

    /** Create the public route table, name it `Public-RT` and route `0.0.0.0/0`
        through the gateway. */
    method CreatePublicTable(vpc: Id, igw: Id, ghost prior: Allocation) returns (table: Option<Id>, ok: bool, ghost calls: seq<Call>)
      modifies ec2
      ensures ec2.log == old(ec2.log) + calls && ec2.State() == RunAll(old(ec2.State()), OpsOf(calls))
      ensures StageRun(prior, calls, PublicTableCalls(vpc, IdOr(table), igw), table, ok)
    {
      ghost var base := ec2.State();
      RunAllNone(base);
      hide Apply, Outcome, Permitted, Effect, Answer, RunAll, OpsOf, CreatedIds, Collect, StageRun, PublicTableCalls;
      table, ok, calls := None, false, [];
      var reply;
      reply, calls := Invoke(CreateRouteTable(vpc), base, calls);
      if reply.Failed? {
        PublicTableStopsFirst(prior, vpc, igw, reply);
        return;
      }
      var id := reply.id;
      table := Some(id);
      reply, calls := Invoke(CreateTags(id, [PublicName]), base, calls);
      if reply.Failed? {
        PublicTableStopsSecond(prior, vpc, id, igw, reply);
        return;
      }
      reply, calls := Invoke(CreateRoute(id, DefaultRoute, igw), base, calls);
      ok := !reply.Failed?;
      PublicTableStopsThird(prior, vpc, id, igw, reply);
    }

    /** Create the private route table and name it `Private-RT`. */
    method CreatePrivateTable(vpc: Id, ghost prior: Allocation) returns (table: Option<Id>, ok: bool, ghost calls: seq<Call>)
      modifies ec2
      ensures ec2.log == old(ec2.log) + calls && ec2.State() == RunAll(old(ec2.State()), OpsOf(calls))
      ensures StageRun(prior, calls, PrivateTableCalls(vpc, IdOr(table)), table, ok)
    {
      ghost var base := ec2.State();
      RunAllNone(base);
      hide Apply, Outcome, Permitted, Effect, Answer, RunAll, OpsOf, CreatedIds, Collect, StageRun, PrivateTableCalls;
      table, ok, calls := None, false, [];
      var reply;
      reply, calls := Invoke(CreateRouteTable(vpc), base, calls);
      if reply.Failed? {
        PrivateTableStopsFirst(prior, vpc, reply);
        return;
      }
      var id := reply.id;
      table := Some(id);
      reply, calls := Invoke(CreateTags(id, [PrivateName]), base, calls);
      ok := !reply.Failed?;
      PrivateTableStopsSecond(prior, vpc, id, reply);
    }

    /** The subnet loop of `create_vpc`: for each block in order, create the subnet
        and record its id, tag it with its given or default tag, and associate it
        with the public route table when its index is below the public count and
        with the private one otherwise. The first failed call ends it. */
    method CreateSubnets(vpc: Id, cidrs: seq<string>, publicCount: int, publicTable: Id, privateTable: Id,
                         subnetTags: Option<seq<Tag>>, ghost prior: Allocation)
      returns (subnets: seq<Id>, ok: bool, ghost calls: seq<Call>)
      modifies ec2
      ensures ec2.log == old(ec2.log) + calls && ec2.State() == RunAll(old(ec2.State()), OpsOf(calls))
      ensures IdSet(subnets) == CreatedIds(calls) && Collect(prior, calls) == prior.(subnets := prior.subnets + subnets)
      ensures ok ==> SubnetCalls(calls, vpc, cidrs, subnets, subnetTags, publicCount, publicTable, privateTable)
      ensures !ok ==> Halted(calls, SubnetPlan(vpc, cidrs, subnets, subnetTags, publicCount, publicTable, privateTable))
    {
      ghost var base := ec2.State();
      subnets, ok, calls := [], false, [];
      CreatedIdsEmpty();
      for idx := 0 to |cidrs|
        invariant ec2.log == base.log + calls && ec2.State() == RunAll(base, OpsOf(calls))
        invariant IdSet(subnets) == CreatedIds(calls) && Collect(prior, calls) == prior.(subnets := prior.subnets + subnets)
        invariant SubnetCalls(calls, vpc, cidrs[..idx], subnets, subnetTags, publicCount, publicTable, privateTable)
        invariant Followed(calls, SubnetPlan(vpc, cidrs[..idx], subnets, subnetTags, publicCount, publicTable, privateTable))
      {
        var subnet, created;
        ghost var three;
        subnet, created, three := CreateSubnetAt(vpc, cidrs[idx], idx, publicCount, publicTable, privateTable, subnetTags,
                                                 Collect(prior, calls));
        SubnetTurnStep(prior, vpc, cidrs, idx, subnets, calls, three, subnet, created, subnetTags, publicCount, publicTable, privateTable);
        RunAllCalls(base, calls, three);
        AppendAssoc(base.log, calls, three);
        if subnet.Some? {
          subnets := subnets + [subnet.value];
        }
        calls := calls + three;
        if !created {
          return;
        }
      }
      assert cidrs[..|cidrs|] == cidrs;
      ok := true;
    }

    /** One turn of the subnet loop: create the subnet, tag it, associate it. */
    method CreateSubnetAt(vpc: Id, cidr: string, idx: nat, publicCount: int, publicTable: Id, privateTable: Id,
                          subnetTags: Option<seq<Tag>>, ghost prior: Allocation)
      returns (subnet: Option<Id>, ok: bool, ghost calls: seq<Call>)
      modifies ec2
      ensures ec2.log == old(ec2.log) + calls && ec2.State() == RunAll(old(ec2.State()), OpsOf(calls))
      ensures TurnRun(prior, calls, vpc, cidr, subnet, SubnetTag(idx, subnetTags),
                      RouteTableFor(idx, publicCount, publicTable, privateTable), ok)
    {
      ghost var base := ec2.State();
      RunAllNone(base);
      hide Apply, Outcome, Permitted, Effect, Answer, RunAll, OpsOf, CreatedIds, Collect, TurnRun;
      var tag, table := SubnetTag(idx, subnetTags), RouteTableFor(idx, publicCount, publicTable, privateTable);
      subnet, ok, calls := None, false, [];
      var reply;
      reply, calls := Invoke(Op.CreateSubnet(vpc, cidr), base, calls);
      if reply.Failed? {
        TurnStopsFirst(prior, vpc, cidr, tag, table, reply);
        return;
      }
      var id := reply.id;
      subnet := Some(id);
      reply, calls := Invoke(CreateTags(id, [tag]), base, calls);
      if reply.Failed? {
        TurnStopsSecond(prior, vpc, cidr, id, tag, table, reply);
        return;
      }
      reply, calls := Invoke(AssociateRouteTable(id, table), base, calls);
      ok := !reply.Failed?;
      TurnStopsThird(prior, vpc, cidr, id, tag, table, reply);
    }

    // ----------------------------------------------------------------- create

    /** The `try` of `create_vpc`: parse the CIDR, set up the network, pick the public
        count, partition the network, create the subnets and write the record. The
        first failure ends it with whatever was allocated by then; the record is
        written only when every earlier step succeeded. */
    method Provision(cidr: string, subnetCount: int, publicSubnetCount: Option<int>, vpcTags: Option<seq<Tag>>,
                     subnetTags: Option<seq<Tag>>)
      returns (alloc: Allocation, item: Option<Item>, ghost calls: seq<Call>)
      requires table.Valid()
      modifies ec2, table
      ensures table.Valid()
      ensures ec2.log == old(ec2.log) + calls && ec2.State() == RunAll(old(ec2.State()), OpsOf(calls))
      ensures AllocatedIds(alloc) == CreatedIds(calls) && alloc == AllocationOf(calls)
      ensures ParseCidr(cidr).Err? ==> item.None? && calls == [] && alloc == NoAllocation && ec2.State() == old(ec2.State())
      ensures ParseCidr(cidr).Ok? && subnetCount > Capacity(ParseCidr(cidr).value.prefix, 32) ==>
        item.None? && alloc.subnets == [] && calls != [] && calls[0].op == Op.CreateVpc(Render(ParseCidr(cidr).value))
      ensures item.None? ==> table.items == old(table.items)
      ensures item.None? ==>
        || ParseCidr(cidr).Err?
        || Stopped(cidr, subnetCount, publicSubnetCount, vpcTags, subnetTags, alloc, calls)
        || (&& old(table.requests) in table.failing
            && alloc.vpc.Some? && alloc.igw.Some? && alloc.publicTable.Some? && alloc.privateTable.Some?
            && Provisioned(cidr, subnetCount, publicSubnetCount, vpcTags, subnetTags, region, alloc,
                           CreatedItem(alloc.vpc.value, region, alloc.subnets, vpcTags, alloc.igw.value,
                                       alloc.publicTable.value, alloc.privateTable.value),
                           calls))
      ensures item.Some? ==> Provisioned(cidr, subnetCount, publicSubnetCount, vpcTags, subnetTags, region, alloc, item.value, calls)
      ensures item.Some? ==> table.items == old(table.items)[item.value.vpcId := item.value]
    {
      var ok;
      alloc, ok, calls := Allocate(cidr, subnetCount, publicSubnetCount, vpcTags, subnetTags);
      item := None;
      if ok {
        var record := CreatedItem(alloc.vpc.value, region, alloc.subnets, vpcTags, alloc.igw.value, alloc.publicTable.value,
                                  alloc.privateTable.value);
        var stored := table.PutItem(record);
        if stored {
          item := Some(record);
        }
      }
    }

    /** The remote part of `create_vpc`'s `try`: everything before the record is
        written. An unparsable CIDR ends it before any remote call. */
    method Allocate(cidr: string, subnetCount: int, publicSubnetCount: Option<int>, vpcTags: Option<seq<Tag>>,
                    subnetTags: Option<seq<Tag>>)
      returns (alloc: Allocation, ok: bool, ghost calls: seq<Call>)
      modifies ec2
      ensures ec2.log == old(ec2.log) + calls && ec2.State() == RunAll(old(ec2.State()), OpsOf(calls))
      ensures AllocatedIds(alloc) == CreatedIds(calls) && alloc == AllocationOf(calls)
      ensures ParseCidr(cidr).Err? ==> !ok && calls == [] && alloc == NoAllocation && ec2.State() == old(ec2.State())
      ensures ParseCidr(cidr).Ok? && subnetCount > Capacity(ParseCidr(cidr).value.prefix, 32) ==>
        !ok && alloc.subnets == [] && calls != [] && calls[0].op == Op.CreateVpc(Render(ParseCidr(cidr).value))
      ensures !ok ==> ParseCidr(cidr).Err? || Stopped(cidr, subnetCount, publicSubnetCount, vpcTags, subnetTags, alloc, calls)
      ensures ok ==> alloc.vpc.Some? && alloc.igw.Some? && alloc.publicTable.Some? && alloc.privateTable.Some?
      ensures ok ==> Provisioned(cidr, subnetCount, publicSubnetCount, vpcTags, subnetTags, region, alloc,
                                 CreatedItem(alloc.vpc.value, region, alloc.subnets, vpcTags, alloc.igw.value,
                                             alloc.publicTable.value, alloc.privateTable.value),
                                 calls)
    {
      var parsed := ParseCidr(cidr);
      if parsed.Err? {
        alloc, ok, calls := NoAllocation, false, [];
        CreatedIdsEmpty();
        return;
      }
      alloc, ok, calls := AllocateOn(parsed.value, Render(parsed.value), subnetCount, publicSubnetCount, vpcTags, subnetTags);
    }

    /** The VPC, its gateway and route tables, then its subnets, on the parsed
        network. */
    method AllocateOn(network: Block, rendered: string, subnetCount: int, publicSubnetCount: Option<int>, vpcTags: Option<seq<Tag>>,
                      subnetTags: Option<seq<Tag>>)
      returns (alloc: Allocation, ok: bool, ghost calls: seq<Call>)
      requires IsNetwork(network)
      modifies ec2
      ensures ec2.log == old(ec2.log) + calls && ec2.State() == RunAll(old(ec2.State()), OpsOf(calls))
      ensures AllocatedIds(alloc) == CreatedIds(calls) && alloc == AllocationOf(calls)
      ensures calls != [] && calls[0].op == Op.CreateVpc(rendered)
      ensures subnetCount > Capacity(network.prefix, 32) ==> !ok && alloc.subnets == []
      ensures !ok ==> StoppedOn(network, rendered, subnetCount, publicSubnetCount, vpcTags, subnetTags, alloc, calls)
      ensures ok ==> alloc.vpc.Some? && alloc.igw.Some? && alloc.publicTable.Some? && alloc.privateTable.Some?
      ensures ok ==> ProvisionedOn(network, rendered, subnetCount, publicSubnetCount, vpcTags, subnetTags, region, alloc,
                                   CreatedItem(alloc.vpc.value, region, alloc.subnets, vpcTags, alloc.igw.value,
                                               alloc.publicTable.value, alloc.privateTable.value),
                                   calls)
    {
      var networkOk;
      alloc, networkOk, calls := CreateNetwork(rendered, vpcTags);
      ok := false;
      if networkOk {
        ghost var subnetCalls;
        alloc, ok, subnetCalls := AddSubnets(network, rendered, subnetCount, publicSubnetCount, vpcTags, subnetTags, alloc, calls);
        RunAllCalls(old(ec2.State()), calls, subnetCalls);
        AppendAssoc(old(ec2.log), calls, subnetCalls);
        calls := calls + subnetCalls;
      } else {
        NetworkStopped(network, rendered, subnetCount, publicSubnetCount, vpcTags, subnetTags, alloc, calls);
      }
    }

    /** The subnets of a network whose VPC, gateway and route tables were set up by
        `setup`. */
    method AddSubnets(network: Block, rendered: string, subnetCount: int, publicSubnetCount: Option<int>, vpcTags: Option<seq<Tag>>,
                      subnetTags: Option<seq<Tag>>, prior: Allocation, ghost setup: seq<Call>)
      returns (alloc: Allocation, ok: bool, ghost subnetCalls: seq<Call>)
      requires IsNetwork(network)
      requires prior.vpc.Some? && prior.igw.Some? && prior.publicTable.Some? && prior.privateTable.Some?
      requires prior.subnets == [] && AllocatedIds(prior) == CreatedIds(setup) && prior == AllocationOf(setup)
      requires setup == SetupCalls(rendered, vpcTags, prior.vpc.value, prior.igw.value,
                                   prior.publicTable.value, prior.privateTable.value)
      modifies ec2
      ensures ec2.log == old(ec2.log) + subnetCalls && ec2.State() == RunAll(old(ec2.State()), OpsOf(subnetCalls))
      ensures AllocatedIds(alloc) == CreatedIds(setup + subnetCalls) && alloc == AllocationOf(setup + subnetCalls)
      ensures alloc == prior.(subnets := alloc.subnets)
      ensures subnetCount > Capacity(network.prefix, 32) ==> !ok && alloc.subnets == [] && subnetCalls == []
      ensures !ok ==> StoppedOn(network, rendered, subnetCount, publicSubnetCount, vpcTags, subnetTags, alloc, setup + subnetCalls)
      ensures ok ==> ProvisionedOn(network, rendered, subnetCount, publicSubnetCount, vpcTags, subnetTags, region, alloc,
                                   CreatedItem(alloc.vpc.value, region, alloc.subnets, vpcTags, alloc.igw.value,
                                               alloc.publicTable.value, alloc.privateTable.value),
                                   setup + subnetCalls)
    {
      var subnets;
      subnets, ok, subnetCalls := ProvisionSubnets(network, subnetCount, publicSubnetCount, subnetTags,
                                                   prior.vpc.value, prior.publicTable.value, prior.privateTable.value, prior);
      CreatedIdsConcat(setup, subnetCalls);
      CollectConcat(NoAllocation, setup, subnetCalls);
      AllocatedSubnets(prior, subnets);
      alloc := prior.(subnets := subnets);
      if !ok {
        AddSubnetsStopped(network, rendered, subnetCount, publicSubnetCount, vpcTags, subnetTags, alloc, setup, subnetCalls);
      }
      if ok {
        ProvisionedIntro(network, rendered, subnetCount, publicSubnetCount, vpcTags, subnetTags, region, alloc, setup, subnetCalls);
      }
    }

    /** The subnet phase of `create_vpc`: resolve the public count, partition the
        rendered network, which fails when it has no room for the subnets, and create
        the subnets. */
    method ProvisionSubnets(network: Block, subnetCount: int, publicSubnetCount: Option<int>, subnetTags: Option<seq<Tag>>,
                            vpc: Id, publicTable: Id, privateTable: Id, ghost prior: Allocation)
      returns (subnets: seq<Id>, ok: bool, ghost calls: seq<Call>)
      requires IsNetwork(network)
      modifies ec2
      ensures ec2.log == old(ec2.log) + calls && ec2.State() == RunAll(old(ec2.State()), OpsOf(calls))
      ensures IdSet(subnets) == CreatedIds(calls) && Collect(prior, calls) == prior.(subnets := prior.subnets + subnets)
      ensures subnetCount > Capacity(network.prefix, 32) ==> !ok && subnets == [] && calls == []
      ensures !ok && subnetCount <= Capacity(network.prefix, 32) ==>
        && NetworkSubnets(network, subnetCount).Ok?
        && Halted(calls, SubnetPlan(vpc, NetworkSubnets(network, subnetCount).value, subnets, subnetTags,
                                    EffectivePublicCount(subnetCount, publicSubnetCount), publicTable, privateTable))
      ensures ok ==> subnetCount <= Capacity(network.prefix, 32) && NetworkSubnets(network, subnetCount).Ok?
      ensures ok ==> |subnets| == (if subnetCount < 0 then 0 else subnetCount)
      ensures ok ==> SubnetCalls(calls, vpc, NetworkSubnets(network, subnetCount).value, subnets, subnetTags,
                                 EffectivePublicCount(subnetCount, publicSubnetCount), publicTable, privateTable)
    {
      var publicCount := EffectivePublicCount(subnetCount, publicSubnetCount);
      NetworkSubnetsOutcome(network, subnetCount);
      RenderedSubnets(network, subnetCount);
      var cidrs := CalculateSubnets(Render(network), subnetCount);
      if cidrs.Err? {
        subnets, ok, calls := [], false, [];
        CreatedIdsEmpty();
        assert prior.subnets + subnets == prior.subnets;
        return;
      }
      subnets, ok, calls := CreateSubnets(vpc, cidrs.value, publicCount, publicTable, privateTable, subnetTags, prior);
    }

    /** `create_vpc`: provision, and on any failure roll back exactly the ids
        made so far and return nothing; on success return the normalised record
        it wrote. */
    method CreateVpc(cidr: string, subnetCount: int, publicSubnetCount: Option<int>, vpcTags: Option<seq<Tag>>,
                     subnetTags: Option<seq<Tag>>)
      returns (r: Option<VpcView>, ghost alloc: Allocation, ghost calls: seq<Call>, ghost atFailure: Cloud)
      requires table.Valid()
      modifies ec2, table
      ensures table.Valid()
      ensures r.None? ==> table.items == old(table.items)
      ensures AllocatedIds(alloc) == CreatedIds(calls) && alloc == AllocationOf(calls)
      ensures r.None? ==> atFailure.log == old(ec2.log) + calls && atFailure == RunAll(old(ec2.State()), OpsOf(calls))
      ensures r.None? ==>
        ec2.State() == Rollback(atFailure, alloc.vpc, alloc.igw, [alloc.publicTable, alloc.privateTable], alloc.subnets)
      ensures r.None? ==>
        || ParseCidr(cidr).Err?
        || Stopped(cidr, subnetCount, publicSubnetCount, vpcTags, subnetTags, alloc, calls)
        || (&& old(table.requests) in table.failing
            && alloc.vpc.Some? && alloc.igw.Some? && alloc.publicTable.Some? && alloc.privateTable.Some?
            && Provisioned(cidr, subnetCount, publicSubnetCount, vpcTags, subnetTags, region, alloc,
                           CreatedItem(alloc.vpc.value, region, alloc.subnets, vpcTags, alloc.igw.value,
                                       alloc.publicTable.value, alloc.privateTable.value),
                           calls))
      ensures ParseCidr(cidr).Err? ==> r.None? && calls == [] && ec2.State() == old(ec2.State())
      ensures ParseCidr(cidr).Ok? && subnetCount > Capacity(ParseCidr(cidr).value.prefix, 32) ==>
        r.None? && calls != [] && calls[0].op == Op.CreateVpc(Render(ParseCidr(cidr).value))
      ensures r.Some? ==> ec2.log == old(ec2.log) + calls && ec2.State() == RunAll(old(ec2.State()), OpsOf(calls))
      ensures r.Some? ==> Provisioned(cidr, subnetCount, publicSubnetCount, vpcTags, subnetTags, region, alloc, Complete(r.value), calls)
      ensures r.Some? ==> table.items == old(table.items)[r.value.vpcId := Complete(r.value)]
      ensures r.Some? ==> Normalize(Store.Lookup(table.items, r.value.vpcId), region) == r
    {
      var made, item;
      made, item, calls := Provision(cidr, subnetCount, publicSubnetCount, vpcTags, subnetTags);
      alloc, atFailure := made, ec2.State();
      if item.None? {
        RollbackVpc(made.vpc, made.igw, [made.publicTable, made.privateTable], made.subnets);
        if ParseCidr(cidr).Err? {
          RollbackNothing(atFailure);
        }
        r := None;
        return;
      }
      r := Normalize(item, region);
      NormalizeComplete(r.value, item.value, region);
    }

    // ------------------------------------------------------------ get and list

    /** `get_vpc`: the normalised record stored under `vpc`, if any; a failed read
        propagates. */
    method GetVpc(vpc: Id) returns (r: Result<Option<VpcView>, Store.StoreError>)
      modifies table
      ensures table.items == old(table.items) && table.requests == old(table.requests) + 1
      ensures r.Err? <==> old(table.requests) in table.failing
      ensures r.Ok? ==> r.value == Normalize(Store.Lookup(table.items, vpc), region)
      ensures r.Ok? ==> (r.value.None? <==> vpc !in table.items)
    {
      var found := table.GetItem(vpc);
      if found.Err? {
        return Err(found.error);
      }
      return Ok(Normalize(found.value, region));
    }

    /** `list_vpcs`: every stored record once, normalised; a failed scan propagates. */
    method ListVpcs() returns (r: Result<seq<VpcView>, Store.StoreError>)
      requires table.Valid()
      modifies table
      ensures table.items == old(table.items) && table.requests == old(table.requests) + 1
      ensures r.Err? <==> old(table.requests) in table.failing
      ensures r.Ok? ==> |r.value| == |table.items.Keys|
      ensures r.Ok? ==> forall i :: 0 <= i < |r.value| ==>
        r.value[i].vpcId in table.items && Normalize(Some(table.items[r.value[i].vpcId]), region) == Some(r.value[i])
      ensures r.Ok? ==> forall i, j :: 0 <= i < j < |r.value| ==> r.value[i].vpcId != r.value[j].vpcId
      ensures r.Ok? ==> forall k :: k in table.items ==> exists i :: 0 <= i < |r.value| && r.value[i].vpcId == k
    {
      var scanned := table.Scan();
      if scanned.Err? {
        return Err(scanned.error);
      }
      var found := scanned.value;
      var views := seq(|found|, i requires 0 <= i < |found| => Normalize(Some(found[i]), region).value);
      forall k | k in table.items
        ensures exists i :: 0 <= i < |views| && views[i].vpcId == k
      {
        assert k in Store.Keys(found);
        var i :| 0 <= i < |found| && found[i].vpcId == k;
        assert views[i].vpcId == k;
      }
      return Ok(views);
    }

    // ----------------------------------------------------------------- update

    /** `update_vpc`: with no tags or an empty list nothing is touched; otherwise the
        tags are added to the VPC, merging with its existing ones, and the stored
        `Tags` are then replaced by exactly `tags`. A failure of either request fails
        the update. */
    method UpdateVpc(vpc: Id, tags: Option<seq<Tag>>) returns (r: Result<UpdateReply, UpdateError>)
      requires table.Valid()
      modifies ec2, table
      ensures table.Valid()
      ensures r.Ok? ==> r.value == UpdateReply(vpc, tags)
      ensures tags.None? || |tags.value| == 0 ==>
        r.Ok? && ec2.State() == old(ec2.State()) && table.items == old(table.items) && table.requests == old(table.requests)
      ensures tags.Some? && |tags.value| > 0 ==>
        ec2.State() == Apply(old(ec2.State()), CreateTags(vpc, tags.value))
      ensures tags.Some? && |tags.value| > 0 ==>
        (r.Ok? <==> !Outcome(old(ec2.State()), CreateTags(vpc, tags.value)).Failed? && old(table.requests) !in table.failing)
      ensures tags.Some? && |tags.value| > 0 && Outcome(old(ec2.State()), CreateTags(vpc, tags.value)).Failed? ==>
        table.requests == old(table.requests)
      ensures r.Err? ==> table.items == old(table.items)
      ensures r.Ok? && tags.Some? && |tags.value| > 0 ==>
        table.items == old(table.items)[vpc := WithTags(Store.Lookup(old(table.items), vpc), vpc, tags.value)]
      ensures r.Ok? && tags.Some? && |tags.value| > 0 ==>
        Normalize(Store.Lookup(table.items, vpc), region).value.tags == tags.value
    {
      if tags.None? || |tags.value| == 0 {
        return Ok(UpdateReply(vpc, tags));
      }
      var reply := ec2.Request(CreateTags(vpc, tags.value));
      if reply.Failed? {
        return Err(UpdateFailed);
      }
      var stored := table.SetTags(vpc, tags.value);
      if !stored {
        return Err(UpdateFailed);
      }
      WithTagsReplaces(Store.Lookup(old(table.items), vpc), vpc, tags.value, region);
      return Ok(UpdateReply(vpc, tags));
    }

    // ----------------------------------------------------------------- delete

    /** `delete_vpc`: a failed read propagates and a missing record gives nothing
        without any remote call. Otherwise every teardown step is attempted whatever
        the earlier ones did: the record's subnets, the VPC's route tables as
        described, its gateways as described, the VPC, and the record; the
        confirmation is returned regardless. */
    method DeleteVpc(vpc: Id) returns (r: Result<Option<Confirmation>, Store.StoreError>)
      requires table.Valid()
      modifies ec2, table
      ensures table.Valid()
      ensures r.Err? <==> old(table.requests) in table.failing
      ensures r.Err? ==> ec2.State() == old(ec2.State()) && table.items == old(table.items)
      ensures r == Ok(None) <==> old(table.requests) !in table.failing && vpc !in old(table.items)
      ensures r == Ok(None) ==> ec2.State() == old(ec2.State()) && table.items == old(table.items)
      ensures r.Ok? && r.value.Some? ==> r.value.value == Deleted(vpc) && vpc in old(table.items)
      ensures r.Ok? && r.value.Some? ==>
        ec2.State() == Teardown(old(ec2.State()), vpc, old(table.items)[vpc].subnetIds.GetOr([]))
      ensures r.Ok? && r.value.Some? ==>
        table.items == if old(table.requests) + 1 in table.failing then old(table.items) else old(table.items) - {vpc}
    {
      var record := GetVpc(vpc);
      if record.Err? {
        return Err(record.error);
      }
      if record.value.None? {
        return Ok(None);
      }
      DeleteSubnets(record.value.value.subnetIds);
      TearDownTables(vpc);
      TearDownGateways(vpc);
      var _ := ec2.Request(Op.DeleteVpc(vpc));
      var _ := table.DeleteItem(vpc);
      return Ok(Some(Deleted(vpc)));
    }

    /** Describe the VPC's route tables and, when that succeeds, tear each down:
        disassociate its non-main associations, then delete it unless one of its
        associations is the main one. */
    method TearDownTables(vpc: Id)
      modifies ec2
      ensures ec2.State() == TablesStage(old(ec2.State()), vpc)
    {
      var reply := ec2.Request(DescribeRouteTables(vpc));
      if reply.RouteTables? {
        ghost var described := ec2.State();
        var tables := reply.tables;
        for k := 0 to |tables|
          invariant ec2.State() == RunAll(described, TableTeardown(tables[..k]))
        {
          assert tables[..k + 1][..k] == tables[..k];
          TearDownTable(tables[k], described, TableTeardown(tables[..k]));
        }
        assert tables[..|tables|] == tables;
      }
    }

    /** One described route table: its disassociations, then its deletion unless it
        has a main association. */
    method TearDownTable(t: TableInfo, ghost start: Cloud, ghost done: seq<Op>)
      requires ec2.State() == RunAll(start, done)
      modifies ec2
      ensures ec2.State() == RunAll(start, done + TableOps(t))
    {
      var assocs := t.associations;
      Disassociate(assocs, start, done);
      var hasMain := exists i :: 0 <= i < |assocs| && assocs[i].main;
      if !hasMain {
        assert done + TableOps(t) == (done + Disassociations(assocs)) + [DeleteRouteTable(t.id)];
        RunAllAppend(start, done + Disassociations(assocs), DeleteRouteTable(t.id));
        var _ := ec2.Request(DeleteRouteTable(t.id));
      } else {
        assert done + TableOps(t) == done + Disassociations(assocs);
      }
    }

    /** Disassociate, in order, each association that is not the main one. */
    method Disassociate(assocs: seq<AssociationInfo>, ghost start: Cloud, ghost done: seq<Op>)
      requires ec2.State() == RunAll(start, done)
      modifies ec2
      ensures ec2.State() == RunAll(start, done + Disassociations(assocs))
    {
      assert done + Disassociations(assocs[..0]) == done;
      for j := 0 to |assocs|
        invariant ec2.State() == RunAll(start, done + Disassociations(assocs[..j]))
      {
        assert assocs[..j + 1][..j] == assocs[..j];
        if !assocs[j].main {
          assert done + Disassociations(assocs[..j + 1]) ==
            (done + Disassociations(assocs[..j])) + [DisassociateRouteTable(assocs[j].id)];
          RunAllAppend(start, done + Disassociations(assocs[..j]), DisassociateRouteTable(assocs[j].id));
          var _ := ec2.Request(DisassociateRouteTable(assocs[j].id));
        } else {
          assert Disassociations(assocs[..j + 1]) == Disassociations(assocs[..j]);
        }
      }
      assert assocs[..|assocs|] == assocs;
    }

    /** Describe the gateways attached to the VPC and, when that succeeds, detach and
        delete each; a failed detach does not stop the delete. */
    method TearDownGateways(vpc: Id)
      modifies ec2
      ensures ec2.State() == GatewaysStage(old(ec2.State()), vpc)
    {
      var reply := ec2.Request(DescribeInternetGateways(vpc));
      if reply.InternetGateways? {
        ghost var described := ec2.State();
        var gateways := reply.gateways;
        for k := 0 to |gateways|
          invariant ec2.State() == RunAll(described, GatewayTeardown(gateways[..k], vpc))
        {
          var g := gateways[k];
          ghost var done := GatewayTeardown(gateways[..k], vpc);
          assert gateways[..k + 1][..k] == gateways[..k];
          assert GatewayTeardown(gateways[..k + 1], vpc) == (done + [DetachInternetGateway(g, vpc)]) + [DeleteInternetGateway(g)];
          RunAllAppend(described, done, DetachInternetGateway(g, vpc));
          var _ := ec2.Request(DetachInternetGateway(g, vpc));
          RunAllAppend(described, done + [DetachInternetGateway(g, vpc)], DeleteInternetGateway(g));
          var _ := ec2.Request(DeleteInternetGateway(g));
        }
        assert gateways[..|gateways|] == gateways;
      }
    }
  }
}
