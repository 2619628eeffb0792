/** What `_rollback_vpc` and `delete_vpc` do to the cloud, as functions of the
    cloud they start from, and the properties of the calls they make: which calls,
    in which order, and what is gone afterwards. */
module Plans {
  import opened Base
  import opened Records
  import opened Ec2

  // ------------------------------------------------------- runs of calls

  /** The cloud after attempting each of `ops` in turn, whatever each one answers:
      a loop whose body catches and logs every failure. */
  function RunAll(c: Cloud, ops: seq<Op>): (d: Cloud)
    ensures |d.log| == |c.log| + |ops| && d.failing == c.failing
    decreases |ops|
  {
    if |ops| == 0 then c else Apply(RunAll(c, ops[..|ops| - 1]), ops[|ops| - 1])
  }

  /** The requests of a stretch of the log. */
  function OpsOf(calls: seq<Call>): (ops: seq<Op>)
    ensures |ops| == |calls|
  {
    seq(|calls|, i requires 0 <= i < |calls| => calls[i].op)
  }

  /** The calls made between two states of the cloud. */
  function Since(c: Cloud, d: Cloud): seq<Call>
    requires |c.log| <= |d.log|
  {
    d.log[|c.log|..]
  }

  /** `d` extends `c`'s log. */
  predicate Extends(c: Cloud, d: Cloud) {
    |c.log| <= |d.log| && d.log[..|c.log|] == c.log
  }

  predicate AllSucceeded(calls: seq<Call>) {
    forall i :: 0 <= i < |calls| ==> calls[i].reply != Failed
  }

  lemma ExtendsTrans(a: Cloud, b: Cloud, c: Cloud)
    requires Extends(a, b) && Extends(b, c)
    ensures Extends(a, c)
    ensures Since(a, c) == Since(a, b) + Since(b, c)
  {
    assert c.log[..|a.log|] == c.log[..|b.log|][..|a.log|];
    assert c.log[|a.log|..] == c.log[|a.log|..|b.log|] + c.log[|b.log|..];
    assert c.log[|a.log|..|b.log|] == c.log[..|b.log|][|a.log|..];
  }

  lemma ApplyExtends(c: Cloud, op: Op)
    ensures Extends(c, Apply(c, op))
    ensures Since(c, Apply(c, op)) == [Call(op, Outcome(c, op))]
  {}

  /** A run logs its requests in order, after what was already logged. */
  lemma {:induction false} RunAllLog(c: Cloud, ops: seq<Op>)
    ensures Extends(c, RunAll(c, ops))
    ensures OpsOf(Since(c, RunAll(c, ops))) == ops
    decreases |ops|
  {
    if |ops| > 0 {
      var front := ops[..|ops| - 1];
      var mid := RunAll(c, front);
      RunAllLog(c, front);
      ApplyExtends(mid, ops[|ops| - 1]);
      ExtendsTrans(c, mid, RunAll(c, ops));
      assert OpsOf(Since(c, RunAll(c, ops))) == OpsOf(Since(c, mid)) + [ops[|ops| - 1]];
    }
  }

  lemma RunAllAppend(c: Cloud, ops: seq<Op>, op: Op)
    ensures RunAll(c, ops + [op]) == Apply(RunAll(c, ops), op)
  {
    assert (ops + [op])[..|ops|] == ops;
  }

  /** Running two stretches of requests one after the other is running them joined. */
  lemma {:induction false} RunAllConcat(c: Cloud, first: seq<Op>, second: seq<Op>)
    ensures RunAll(c, first + second) == RunAll(RunAll(c, first), second)
    decreases |second|
  {
    if second == [] {
      assert first + second == first;
    } else {
      var front := second[..|second| - 1];
      RunAllConcat(c, first, front);
      assert (first + second)[..|first + second| - 1] == first + front;
    }
  }

  /** The same, for the requests of two stretches of the log. */
  lemma RunAllCalls(c: Cloud, first: seq<Call>, second: seq<Call>)
    ensures RunAll(RunAll(c, OpsOf(first)), OpsOf(second)) == RunAll(c, OpsOf(first + second))
  {
    OpsOfConcat(first, second);
    RunAllConcat(c, OpsOf(first), OpsOf(second));
  }

  /** The id a removal takes away, if it takes one away. */
  function Removes(op: Op): Option<Id> {
    match op
    case DisassociateRouteTable(a) => Some(a)
    case DeleteSubnet(s) => Some(s)
    case DeleteRouteTable(t) => Some(t)
    case DeleteInternetGateway(g) => Some(g)
    case DeleteVpc(v) => Some(v)
    case _ => None
  }

  /** A run of removals creates nothing; every removal in it that succeeds leaves
      its id gone at the end. */
  lemma {:induction false} RunAllRemoves(c: Cloud, ops: seq<Op>)
    requires forall i :: 0 <= i < |ops| ==> IsRemoval(ops[i])
    ensures var d := RunAll(c, ops);
      && d.live.Keys <= c.live.Keys && d.nextId == c.nextId
      && forall i :: 0 <= i < |ops| && d.log[|c.log| + i].reply != Failed && Removes(ops[i]).Some? ==>
           Removes(ops[i]).value !in d.live
    decreases |ops|
  {
    if |ops| > 0 {
      var front := ops[..|ops| - 1];
      var last := ops[|ops| - 1];
      var mid := RunAll(c, front);
      var d := RunAll(c, ops);
      RunAllRemoves(c, front);
      RemovalShrinks(mid, last);
      forall i | 0 <= i < |ops| && d.log[|c.log| + i].reply != Failed && Removes(ops[i]).Some?
        ensures Removes(ops[i]).value !in d.live
      {
        if i < |ops| - 1 {
          assert d.log[|c.log| + i] == mid.log[|c.log| + i];
          assert ops[i] == front[i];
        } else {
          assert d.log[|c.log| + i] == Call(last, Outcome(mid, last));
        }
      }
    }
  }

  // ------------------------------------------------------------ rollback

  /** `for sid in subnet_ids: delete_subnet(sid)`. */
  function SubnetDeletions(subnets: seq<Id>): (ops: seq<Op>)
    ensures |ops| == |subnets|
    ensures forall i :: 0 <= i < |subnets| ==> ops[i] == DeleteSubnet(subnets[i])
  {
    seq(|subnets|, i requires 0 <= i < |subnets| => DeleteSubnet(subnets[i]))
  }

  /** `for rt_id in route_table_ids: if rt_id: delete_route_table(rt_id)`. */
  function TableDeletions(tables: seq<Option<Id>>): seq<Op>
    decreases |tables|
  {
    if |tables| == 0 then []
    else
      var last := tables[|tables| - 1];
      TableDeletions(tables[..|tables| - 1]) + (if last.Some? then [DeleteRouteTable(last.value)] else [])
  }

  /** The rollback's gateway step: detach and delete share one `try`, so a failed
      detach skips the delete. It runs only when both ids are known. */
  function RemoveGateway(c: Cloud, vpc: Option<Id>, igw: Option<Id>): Cloud {
    if igw.Some? && vpc.Some? then
      var detach := DetachInternetGateway(igw.value, vpc.value);
      var d := Apply(c, detach);
      if Outcome(c, detach).Failed? then d else Apply(d, DeleteInternetGateway(igw.value))
    else c
  }

  /** The cloud when the rollback reaches its gateway step. */
  function BeforeGateway(c: Cloud, tables: seq<Option<Id>>, subnets: seq<Id>): Cloud {
    RunAll(RunAll(c, SubnetDeletions(subnets)), TableDeletions(tables))
  }

  /** `_rollback_vpc(vpc_id, igw_id, route_table_ids, subnet_ids)`. */
  function Rollback(c: Cloud, vpc: Option<Id>, igw: Option<Id>, tables: seq<Option<Id>>, subnets: seq<Id>): Cloud {
    var d := RemoveGateway(BeforeGateway(c, tables, subnets), vpc, igw);
    if vpc.Some? then Apply(d, DeleteVpc(vpc.value)) else d
  }

  /** Whether the rollback's detach is attempted and succeeds. */
  predicate Detached(c: Cloud, vpc: Option<Id>, igw: Option<Id>, tables: seq<Option<Id>>, subnets: seq<Id>) {
    igw.Some? && vpc.Some? &&
    !Outcome(BeforeGateway(c, tables, subnets), DetachInternetGateway(igw.value, vpc.value)).Failed?
  }

  function GatewayOps(vpc: Option<Id>, igw: Option<Id>, detached: bool): seq<Op> {
    if igw.Some? && vpc.Some? then
      [DetachInternetGateway(igw.value, vpc.value)] + (if detached then [DeleteInternetGateway(igw.value)] else [])
    else []
  }

  function VpcOps(vpc: Option<Id>): seq<Op> {
    if vpc.Some? then [DeleteVpc(vpc.value)] else []
  }

  /** The requests of a rollback, given whether its detach succeeds. */
  function RollbackOps(vpc: Option<Id>, igw: Option<Id>, tables: seq<Option<Id>>, subnets: seq<Id>, detached: bool): seq<Op> {
    SubnetDeletions(subnets) + TableDeletions(tables) + GatewayOps(vpc, igw, detached) + VpcOps(vpc)
  }

  lemma RemoveGatewayLog(c: Cloud, vpc: Option<Id>, igw: Option<Id>)
    ensures Extends(c, RemoveGateway(c, vpc, igw))
    ensures OpsOf(Since(c, RemoveGateway(c, vpc, igw))) ==
      GatewayOps(vpc, igw, igw.Some? && vpc.Some? && !Outcome(c, DetachInternetGateway(igw.value, vpc.value)).Failed?)
  {
    if igw.Some? && vpc.Some? {
      var detach := DetachInternetGateway(igw.value, vpc.value);
      var d := Apply(c, detach);
      ApplyExtends(c, detach);
      if !Outcome(c, detach).Failed? {
        ApplyExtends(d, DeleteInternetGateway(igw.value));
        ExtendsTrans(c, d, Apply(d, DeleteInternetGateway(igw.value)));
      }
    }
  }

  /** The rollback makes exactly the requests of `RollbackOps`, in that order,
      after what was logged before. */
  lemma RollbackCalls(c: Cloud, vpc: Option<Id>, igw: Option<Id>, tables: seq<Option<Id>>, subnets: seq<Id>)
    ensures var d := Rollback(c, vpc, igw, tables, subnets);
      && Extends(c, d)
      && OpsOf(Since(c, d)) == RollbackOps(vpc, igw, tables, subnets, Detached(c, vpc, igw, tables, subnets))
  {
    var c1 := RunAll(c, SubnetDeletions(subnets));
    var c2 := BeforeGateway(c, tables, subnets);
    var c3 := RemoveGateway(c2, vpc, igw);
    var d := Rollback(c, vpc, igw, tables, subnets);
    RollbackSegments(c, vpc, igw, tables, subnets);
    RunAllLog(c, SubnetDeletions(subnets));
    RunAllLog(c1, TableDeletions(tables));
    RemoveGatewayLog(c2, vpc, igw);
    DeleteVpcLog(c3, vpc);
    OpsOfConcat4(Since(c, c1), Since(c1, c2), Since(c2, c3), Since(c3, d));
  }

  lemma DeleteVpcLog(c: Cloud, vpc: Option<Id>)
    ensures var d := if vpc.Some? then Apply(c, DeleteVpc(vpc.value)) else c;
      Extends(c, d) && OpsOf(Since(c, d)) == VpcOps(vpc)
  {}

  lemma OpsOfConcat4(a: seq<Call>, b: seq<Call>, e: seq<Call>, f: seq<Call>)
    ensures OpsOf(a + b + e + f) == OpsOf(a) + OpsOf(b) + OpsOf(e) + OpsOf(f)
  {
    OpsOfConcat(a, b);
    OpsOfConcat(a + b, e);
    OpsOfConcat(a + b + e, f);
  }

  lemma OpsOfConcat(a: seq<Call>, b: seq<Call>)
    ensures OpsOf(a + b) == OpsOf(a) + OpsOf(b)
  {}

  /** The position of a request in the rollback's dependency order. */
  function Rank(op: Op): nat {
    match op
    case DeleteSubnet(_) => 0
    case DeleteRouteTable(_) => 1
    case DetachInternetGateway(_, _) => 2
    case DeleteInternetGateway(_) => 3
    case DeleteVpc(_) => 4
    case _ => 5
  }

  lemma {:induction false} TableDeletionsShape(tables: seq<Option<Id>>)
    ensures forall i :: 0 <= i < |TableDeletions(tables)| ==> TableDeletions(tables)[i].DeleteRouteTable?
    ensures forall t: Id :: DeleteRouteTable(t) in TableDeletions(tables) <==> Some(t) in tables
    decreases |tables|
  {
    if |tables| > 0 {
      var front := tables[..|tables| - 1];
      TableDeletionsShape(front);
      assert tables == front + [tables[|tables| - 1]];
    }
  }

  /** Rollback requests come in dependency order: subnets, then route tables, then
      the gateway's detach, its delete, and last the VPC. Every request is a
      removal. */
  lemma RollbackOrder(vpc: Option<Id>, igw: Option<Id>, tables: seq<Option<Id>>, subnets: seq<Id>, detached: bool)
    ensures var ops := RollbackOps(vpc, igw, tables, subnets, detached);
      && (forall i :: 0 <= i < |ops| ==> IsRemoval(ops[i]))
      && (forall i, j :: 0 <= i < j < |ops| ==> Rank(ops[i]) <= Rank(ops[j]))
  {
    TableDeletionsShape(tables);
  }

  /** The rollback asks to delete every subnet it is given and no other, and every
      route table id that is set and no other. */
  lemma RollbackCoverage(vpc: Option<Id>, igw: Option<Id>, tables: seq<Option<Id>>, subnets: seq<Id>, detached: bool)
    ensures var ops := RollbackOps(vpc, igw, tables, subnets, detached);
      && (forall s: Id :: DeleteSubnet(s) in ops <==> s in subnets)
      && (forall t: Id :: DeleteRouteTable(t) in ops <==> Some(t) in tables)
  {
    var ops := RollbackOps(vpc, igw, tables, subnets, detached);
    var tail := GatewayOps(vpc, igw, detached) + VpcOps(vpc);
    assert ops == SubnetDeletions(subnets) + TableDeletions(tables) + tail;
    TableDeletionsShape(tables);
    SubnetDeletionsMembers(subnets);
  }

  lemma SubnetDeletionsMembers(subnets: seq<Id>)
    ensures forall s: Id :: DeleteSubnet(s) in SubnetDeletions(subnets) <==> s in subnets
  {
    var subs := SubnetDeletions(subnets);
    forall s: Id ensures DeleteSubnet(s) in subs <==> s in subnets {
      if s in subnets {
        var i :| 0 <= i < |subnets| && subnets[i] == s;
        assert subs[i] == DeleteSubnet(s);
      }
    }
  }

  /** The rollback detaches the gateway exactly when both the gateway and the VPC
      are set, deletes the gateway only when that detach succeeded, and deletes the
      VPC exactly when it is set. */
  lemma RollbackGatewayAndVpc(vpc: Option<Id>, igw: Option<Id>, tables: seq<Option<Id>>, subnets: seq<Id>, detached: bool)
    ensures var ops := RollbackOps(vpc, igw, tables, subnets, detached);
      && (forall g: Id, v: Id :: DetachInternetGateway(g, v) in ops <==> igw == Some(g) && vpc == Some(v))
      && (forall g: Id :: DeleteInternetGateway(g) in ops <==> igw == Some(g) && vpc.Some? && detached)
      && (forall v: Id :: DeleteVpc(v) in ops <==> vpc == Some(v))
  {
    var ops := RollbackOps(vpc, igw, tables, subnets, detached);
    var head := SubnetDeletions(subnets) + TableDeletions(tables);
    assert ops == head + (GatewayOps(vpc, igw, detached) + VpcOps(vpc));
    TableDeletionsShape(tables);
    assert forall i :: 0 <= i < |head| ==> head[i].DeleteSubnet? || head[i].DeleteRouteTable?;
  }

  /** The gateway step of a rollback only takes resources away. */
  lemma RemoveGatewayShrinks(c: Cloud, vpc: Option<Id>, igw: Option<Id>)
    ensures var d := RemoveGateway(c, vpc, igw);
      d.live.Keys <= c.live.Keys && d.nextId == c.nextId
  {
    if igw.Some? && vpc.Some? {
      var detach := DetachInternetGateway(igw.value, vpc.value);
      RemovalShrinks(c, detach);
      RemovalShrinks(Apply(c, detach), DeleteInternetGateway(igw.value));
    }
  }

  /** Each stage of a rollback only takes resources away. */
  lemma RollbackStagesShrink(c: Cloud, vpc: Option<Id>, igw: Option<Id>, tables: seq<Option<Id>>, subnets: seq<Id>)
    ensures var c1 := RunAll(c, SubnetDeletions(subnets));
      var c2 := BeforeGateway(c, tables, subnets);
      var c3 := RemoveGateway(c2, vpc, igw);
      var d := Rollback(c, vpc, igw, tables, subnets);
      && d.live.Keys <= c3.live.Keys <= c2.live.Keys <= c1.live.Keys <= c.live.Keys
      && d.nextId == c.nextId
  {
    var c1 := RunAll(c, SubnetDeletions(subnets));
    var c2 := BeforeGateway(c, tables, subnets);
    var c3 := RemoveGateway(c2, vpc, igw);
    TableDeletionsShape(tables);
    RunAllRemoves(c, SubnetDeletions(subnets));
    RunAllRemoves(c1, TableDeletions(tables));
    RemoveGatewayShrinks(c2, vpc, igw);
    if vpc.Some? {
      RemovalShrinks(c3, DeleteVpc(vpc.value));
    }
  }

  /** Nothing is created by a rollback: it only takes resources away. */
  lemma RollbackOnlyRemoves(c: Cloud, vpc: Option<Id>, igw: Option<Id>, tables: seq<Option<Id>>, subnets: seq<Id>)
    ensures var d := Rollback(c, vpc, igw, tables, subnets);
      d.live.Keys <= c.live.Keys && d.nextId == c.nextId
  {
    RollbackStagesShrink(c, vpc, igw, tables, subnets);
  }

  lemma AllSucceededSplit(a: seq<Call>, b: seq<Call>)
    requires AllSucceeded(a + b)
    ensures AllSucceeded(a) && AllSucceeded(b)
  {
    forall i | 0 <= i < |a| ensures a[i].reply != Failed {
      assert (a + b)[i] == a[i];
    }
    forall i | 0 <= i < |b| ensures b[i].reply != Failed {
      assert (a + b)[|a| + i] == b[i];
    }
  }

  /** A run of removals that all succeed leaves none of their ids. */
  lemma RunAllClears(c: Cloud, ops: seq<Op>)
    requires forall i :: 0 <= i < |ops| ==> IsRemoval(ops[i])
    requires AllSucceeded(Since(c, RunAll(c, ops)))
    ensures forall i :: 0 <= i < |ops| && Removes(ops[i]).Some? ==> Removes(ops[i]).value !in RunAll(c, ops).live
  {
    var d := RunAll(c, ops);
    RunAllRemoves(c, ops);
    forall i | 0 <= i < |ops| ensures Since(c, d)[i] == d.log[|c.log| + i] {}
  }

  lemma SubnetsCleared(c: Cloud, subnets: seq<Id>)
    requires AllSucceeded(Since(c, RunAll(c, SubnetDeletions(subnets))))
    ensures forall s :: s in subnets ==> s !in RunAll(c, SubnetDeletions(subnets)).live
  {
    var ops := SubnetDeletions(subnets);
    RunAllClears(c, ops);
    forall s | s in subnets ensures s !in RunAll(c, ops).live {
      var i :| 0 <= i < |subnets| && subnets[i] == s;
      assert Removes(ops[i]) == Some(s);
    }
  }

  lemma TablesCleared(c: Cloud, tables: seq<Option<Id>>)
    requires AllSucceeded(Since(c, RunAll(c, TableDeletions(tables))))
    ensures forall t: Id :: Some(t) in tables ==> t !in RunAll(c, TableDeletions(tables)).live
  {
    var ops := TableDeletions(tables);
    TableDeletionsShape(tables);
    RunAllClears(c, ops);
    forall t: Id | Some(t) in tables ensures t !in RunAll(c, ops).live {
      assert DeleteRouteTable(t) in ops;
      var i :| 0 <= i < |ops| && ops[i] == DeleteRouteTable(t);
      assert Removes(ops[i]) == Some(t);
    }
  }

  lemma GatewayCleared(c: Cloud, vpc: Id, igw: Id)
    requires AllSucceeded(Since(c, RemoveGateway(c, Some(vpc), Some(igw))))
    ensures igw !in RemoveGateway(c, Some(vpc), Some(igw)).live
  {
    var detach := DetachInternetGateway(igw, vpc);
    var e := Apply(c, detach);
    assert Since(c, RemoveGateway(c, Some(vpc), Some(igw)))[0] == Call(detach, Outcome(c, detach));
    assert Since(c, RemoveGateway(c, Some(vpc), Some(igw)))[1] ==
      Call(DeleteInternetGateway(igw), Outcome(e, DeleteInternetGateway(igw)));
    RemovalShrinks(e, DeleteInternetGateway(igw));
  }

  /** A rollback whose every request succeeds leaves none of the resources it was
      given: no subnet, no route table, no gateway (when the VPC was known too) and
      no VPC. */
  lemma RollbackCleans(c: Cloud, vpc: Option<Id>, igw: Option<Id>, tables: seq<Option<Id>>, subnets: seq<Id>)
    requires var d := Rollback(c, vpc, igw, tables, subnets);
      Extends(c, d) && AllSucceeded(Since(c, d))
    ensures var d := Rollback(c, vpc, igw, tables, subnets);
      && (forall s :: s in subnets ==> s !in d.live)
      && (forall t: Id :: Some(t) in tables ==> t !in d.live)
      && (igw.Some? && vpc.Some? ==> igw.value !in d.live)
      && (vpc.Some? ==> vpc.value !in d.live)
  {
    var c1 := RunAll(c, SubnetDeletions(subnets));
    var c2 := BeforeGateway(c, tables, subnets);
    var c3 := RemoveGateway(c2, vpc, igw);
    var d := Rollback(c, vpc, igw, tables, subnets);
    RollbackSegments(c, vpc, igw, tables, subnets);
    AllSucceededSplit(Since(c, c1) + Since(c1, c2) + Since(c2, c3), Since(c3, d));
    AllSucceededSplit(Since(c, c1) + Since(c1, c2), Since(c2, c3));
    AllSucceededSplit(Since(c, c1), Since(c1, c2));
    RollbackStagesShrink(c, vpc, igw, tables, subnets);
    SubnetsCleared(c, subnets);
    TablesCleared(c1, tables);
    if igw.Some? && vpc.Some? {
      GatewayCleared(c2, vpc.value, igw.value);
    }
    if vpc.Some? {
      RemovalShrinks(c3, DeleteVpc(vpc.value));
      assert Since(c3, d)[0] == Call(DeleteVpc(vpc.value), Outcome(c3, DeleteVpc(vpc.value)));
    }
  }

  /** The log of a rollback is the logs of its four stages one after another. */
  lemma RollbackSegments(c: Cloud, vpc: Option<Id>, igw: Option<Id>, tables: seq<Option<Id>>, subnets: seq<Id>)
    ensures var c1 := RunAll(c, SubnetDeletions(subnets));
      var c2 := BeforeGateway(c, tables, subnets);
      var c3 := RemoveGateway(c2, vpc, igw);
      var d := Rollback(c, vpc, igw, tables, subnets);
      && Extends(c, c1) && Extends(c1, c2) && Extends(c2, c3) && Extends(c3, d)
      && Since(c, d) == Since(c, c1) + Since(c1, c2) + Since(c2, c3) + Since(c3, d)
  {
    var c1 := RunAll(c, SubnetDeletions(subnets));
    var c2 := BeforeGateway(c, tables, subnets);
    var c3 := RemoveGateway(c2, vpc, igw);
    var d := Rollback(c, vpc, igw, tables, subnets);
    RunAllLog(c, SubnetDeletions(subnets));
    RunAllLog(c1, TableDeletions(tables));
    RemoveGatewayLog(c2, vpc, igw);
    if vpc.Some? {
      ApplyExtends(c3, DeleteVpc(vpc.value));
    }
    ExtendsTrans(c, c1, c2);
    ExtendsTrans(c, c2, c3);
    ExtendsTrans(c, c3, d);
  }

  /** A gateway that is live but attached to nothing when the rollback reaches it
      (its attach was the call that failed) survives the rollback: the detach is
      refused, and the delete in the same `try` is never attempted. */
  lemma RollbackKeepsUnattachedGateway(c: Cloud, vpc: Id, igw: Id, tables: seq<Option<Id>>, subnets: seq<Id>)
    requires var b := BeforeGateway(c, tables, subnets);
      igw in b.live && b.live[igw] == Gateway(None)
    ensures !Detached(c, Some(vpc), Some(igw), tables, subnets)
    ensures DeleteInternetGateway(igw) !in RollbackOps(Some(vpc), Some(igw), tables, subnets, false)
    ensures var d := Rollback(c, Some(vpc), Some(igw), tables, subnets);
      igw in d.live && d.live[igw] == Gateway(None)
  {
    var b := BeforeGateway(c, tables, subnets);
    UnattachedDetachRefused(b, vpc, igw);
    RollbackGatewayAndVpc(Some(vpc), Some(igw), tables, subnets, false);
    DeleteVpcKeepsGateway(RemoveGateway(b, Some(vpc), Some(igw)), vpc, igw);
  }

  /** Detaching a gateway that is attached to nothing is refused and changes
      nothing but the log. */
  lemma UnattachedDetachRefused(c: Cloud, vpc: Id, igw: Id)
    requires igw in c.live && c.live[igw] == Gateway(None)
    ensures Outcome(c, DetachInternetGateway(igw, vpc)).Failed?
    ensures RemoveGateway(c, Some(vpc), Some(igw)).live == c.live
  {
    assert !Permitted(c, DetachInternetGateway(igw, vpc));
  }

  /** Deleting a VPC takes away its route tables and their associations, never a
      gateway. */
  lemma DeleteVpcKeepsGateway(c: Cloud, vpc: Id, igw: Id)
    requires igw in c.live && c.live[igw].Gateway?
    ensures var d := Apply(c, DeleteVpc(vpc));
      igw in d.live && d.live[igw] == c.live[igw]
  {
    if Outcome(c, DeleteVpc(vpc)) != Failed {
      assert igw != vpc;
      assert igw !in VpcTables(c, vpc);
      assert igw !in TableAssociations(c, VpcTables(c, vpc));
    }
  }

  /** With nothing allocated, the rollback makes no call and changes nothing. */
  lemma RollbackNothing(c: Cloud)
    ensures Rollback(c, None, None, [None, None], []) == c
  {
    var none: seq<Option<Id>> := [None, None];
    assert none[..1] == [None];
    assert TableDeletions(none[..1]) == [];
    assert SubnetDeletions([]) == [];
  }

  // ------------------------------------------------------------ teardown

  /** `for assoc in associations: if not assoc.get("Main"): disassociate(...)`. */
  function Disassociations(assocs: seq<AssociationInfo>): seq<Op>
    decreases |assocs|
  {
    if |assocs| == 0 then []
    else
      var last := assocs[|assocs| - 1];
      Disassociations(assocs[..|assocs| - 1]) + (if last.main then [] else [DisassociateRouteTable(last.id)])
  }

  /** `any(assoc.get("Main") for assoc in associations)`. */
  predicate HasMain(t: TableInfo) {
    exists i :: 0 <= i < |t.associations| && t.associations[i].main
  }

  /** The requests `delete_vpc` makes for one described route table. */
  function TableOps(t: TableInfo): seq<Op> {
    Disassociations(t.associations) + (if HasMain(t) then [] else [DeleteRouteTable(t.id)])
  }

  function TableTeardown(tables: seq<TableInfo>): seq<Op>
    decreases |tables|
  {
    if |tables| == 0 then []
    else TableTeardown(tables[..|tables| - 1]) + TableOps(tables[|tables| - 1])
  }

  /** A detach and then a delete for each described gateway; each has its own
      `try`, so the delete is attempted even when the detach fails. */
  function GatewayTeardown(gateways: seq<Id>, vpc: Id): seq<Op>
    decreases |gateways|
  {
    if |gateways| == 0 then []
    else
      var g := gateways[|gateways| - 1];
      GatewayTeardown(gateways[..|gateways| - 1], vpc) + [DetachInternetGateway(g, vpc), DeleteInternetGateway(g)]
  }

  /** The route-table step: describe, then tear down what was described; a failed
      describe skips the step. */
  function TablesStage(c: Cloud, vpc: Id): Cloud {
    var d := Apply(c, DescribeRouteTables(vpc));
    match Outcome(c, DescribeRouteTables(vpc))
    case RouteTables(tables) => RunAll(d, TableTeardown(tables))
    case _ => d
  }

  /** The gateway step: describe the gateways attached to the VPC, then detach and
      delete each; a failed describe skips the step. */
  function GatewaysStage(c: Cloud, vpc: Id): Cloud {
    var d := Apply(c, DescribeInternetGateways(vpc));
    match Outcome(c, DescribeInternetGateways(vpc))
    case InternetGateways(gateways) => RunAll(d, GatewayTeardown(gateways, vpc))
    case _ => d
  }

  /** What `delete_vpc` does to the cloud for a stored record whose subnet ids are
      `subnets`: every step runs whatever the earlier ones answered. */
  function Teardown(c: Cloud, vpc: Id, subnets: seq<Id>): Cloud {
    Apply(GatewaysStage(TablesStage(RunAll(c, SubnetDeletions(subnets)), vpc), vpc), DeleteVpc(vpc))
  }

  function TableStageOps(r: Reply): seq<Op> {
    if r.RouteTables? then TableTeardown(r.tables) else []
  }

  function GatewayStageOps(r: Reply, vpc: Id): seq<Op> {
    if r.InternetGateways? then GatewayTeardown(r.gateways, vpc) else []
  }

  /** The requests of a teardown, given the replies to its two describes. */
  function TeardownOps(vpc: Id, subnets: seq<Id>, tablesReply: Reply, gatewaysReply: Reply): seq<Op> {
    SubnetDeletions(subnets)
    + ([DescribeRouteTables(vpc)] + TableStageOps(tablesReply))
    + ([DescribeInternetGateways(vpc)] + GatewayStageOps(gatewaysReply, vpc))
    + [DeleteVpc(vpc)]
  }

  lemma TablesStageLog(c: Cloud, vpc: Id)
    ensures Extends(c, TablesStage(c, vpc))
    ensures OpsOf(Since(c, TablesStage(c, vpc))) ==
      [DescribeRouteTables(vpc)] + TableStageOps(Outcome(c, DescribeRouteTables(vpc)))
  {
    var d := Apply(c, DescribeRouteTables(vpc));
    ApplyExtends(c, DescribeRouteTables(vpc));
    var r := Outcome(c, DescribeRouteTables(vpc));
    if r.RouteTables? {
      RunAllLog(d, TableTeardown(r.tables));
      ExtendsTrans(c, d, TablesStage(c, vpc));
      OpsOfConcat(Since(c, d), Since(d, TablesStage(c, vpc)));
    }
  }

  lemma GatewaysStageLog(c: Cloud, vpc: Id)
    ensures Extends(c, GatewaysStage(c, vpc))
    ensures OpsOf(Since(c, GatewaysStage(c, vpc))) ==
      [DescribeInternetGateways(vpc)] + GatewayStageOps(Outcome(c, DescribeInternetGateways(vpc)), vpc)
  {
    var d := Apply(c, DescribeInternetGateways(vpc));
    ApplyExtends(c, DescribeInternetGateways(vpc));
    var r := Outcome(c, DescribeInternetGateways(vpc));
    if r.InternetGateways? {
      RunAllLog(d, GatewayTeardown(r.gateways, vpc));
      ExtendsTrans(c, d, GatewaysStage(c, vpc));
      OpsOfConcat(Since(c, d), Since(d, GatewaysStage(c, vpc)));
    }
  }

  /** The teardown deletes the subnets, describes and tears down the route tables,
      describes and tears down the gateways, and last deletes the VPC, each step
      attempted whatever the earlier ones answered. */
  lemma TeardownCalls(c: Cloud, vpc: Id, subnets: seq<Id>)
    ensures var c1 := RunAll(c, SubnetDeletions(subnets));
      var c2 := TablesStage(c1, vpc);
      var d := Teardown(c, vpc, subnets);
      && Extends(c, d)
      && OpsOf(Since(c, d)) == TeardownOps(vpc, subnets, Outcome(c1, DescribeRouteTables(vpc)),
                                           Outcome(c2, DescribeInternetGateways(vpc)))
  {
    var c1 := RunAll(c, SubnetDeletions(subnets));
    var c2 := TablesStage(c1, vpc);
    var c3 := GatewaysStage(c2, vpc);
    var d := Teardown(c, vpc, subnets);
    TeardownSegments(c, vpc, subnets);
    RunAllLog(c, SubnetDeletions(subnets));
    TablesStageLog(c1, vpc);
    GatewaysStageLog(c2, vpc);
    OpsOfConcat4(Since(c, c1), Since(c1, c2), Since(c2, c3), Since(c3, d));
  }

  /** The log of a teardown is the logs of its four steps one after another. */
  lemma TeardownSegments(c: Cloud, vpc: Id, subnets: seq<Id>)
    ensures var c1 := RunAll(c, SubnetDeletions(subnets));
      var c2 := TablesStage(c1, vpc);
      var c3 := GatewaysStage(c2, vpc);
      var d := Teardown(c, vpc, subnets);
      && Extends(c, c1) && Extends(c1, c2) && Extends(c2, c3) && Extends(c3, d)
      && Extends(c, d)
      && Since(c, d) == Since(c, c1) + Since(c1, c2) + Since(c2, c3) + Since(c3, d)
      && Since(c3, d) == [Call(DeleteVpc(vpc), Outcome(c3, DeleteVpc(vpc)))]
  {
    var c1 := RunAll(c, SubnetDeletions(subnets));
    var c2 := TablesStage(c1, vpc);
    var c3 := GatewaysStage(c2, vpc);
    var d := Teardown(c, vpc, subnets);
    RunAllLog(c, SubnetDeletions(subnets));
    TablesStageLog(c1, vpc);
    GatewaysStageLog(c2, vpc);
    ApplyExtends(c3, DeleteVpc(vpc));
    ExtendsTrans(c, c1, c2);
    ExtendsTrans(c, c2, c3);
    ExtendsTrans(c, c3, d);
  }

  lemma {:induction false} DisassociationsMembers(assocs: seq<AssociationInfo>)
    ensures forall i :: 0 <= i < |Disassociations(assocs)| ==> Disassociations(assocs)[i].DisassociateRouteTable?
    ensures forall a: Id :: DisassociateRouteTable(a) in Disassociations(assocs) <==> AssociationInfo(a, false) in assocs
    decreases |assocs|
  {
    if |assocs| > 0 {
      var front := assocs[..|assocs| - 1];
      DisassociationsMembers(front);
      assert assocs == front + [assocs[|assocs| - 1]];
    }
  }

  /** Some described table lists `a` as a non-main association. */
  predicate ListsNonMain(tables: seq<TableInfo>, a: Id) {
    exists k :: 0 <= k < |tables| && AssociationInfo(a, false) in tables[k].associations
  }

  /** Some described table is `t` and has no main association. */
  predicate ListsDeletable(tables: seq<TableInfo>, t: Id) {
    exists k :: 0 <= k < |tables| && tables[k].id == t && !HasMain(tables[k])
  }

  /** The route-table teardown only disassociates and deletes route tables. */
  lemma {:induction false} TableTeardownShape(tables: seq<TableInfo>)
    ensures var ops := TableTeardown(tables);
      forall i :: 0 <= i < |ops| ==> ops[i].DisassociateRouteTable? || ops[i].DeleteRouteTable?
    decreases |tables|
  {
    if |tables| > 0 {
      var last := tables[|tables| - 1];
      TableTeardownShape(tables[..|tables| - 1]);
      DisassociationsMembers(last.associations);
      assert TableTeardown(tables) == TableTeardown(tables[..|tables| - 1]) + Disassociations(last.associations)
        + (if HasMain(last) then [] else [DeleteRouteTable(last.id)]);
    }
  }

  /** The route-table teardown disassociates exactly the non-main associations
      described. */
  lemma {:induction false} TableTeardownDisassociates(tables: seq<TableInfo>)
    ensures forall a: Id :: DisassociateRouteTable(a) in TableTeardown(tables) <==> ListsNonMain(tables, a)
    decreases |tables|
  {
    if |tables| > 0 {
      var front := tables[..|tables| - 1];
      var last := tables[|tables| - 1];
      TableTeardownDisassociates(front);
      DisassociationsMembers(last.associations);
      var ops := TableTeardown(tables);
      assert ops == TableTeardown(front) + Disassociations(last.associations)
        + (if HasMain(last) then [] else [DeleteRouteTable(last.id)]);
      forall a: Id ensures DisassociateRouteTable(a) in ops <==> ListsNonMain(tables, a) {
        if ListsNonMain(tables, a) {
          var k :| 0 <= k < |tables| && AssociationInfo(a, false) in tables[k].associations;
          if k < |front| {
            assert front[k] == tables[k];
          }
        }
        if ListsNonMain(front, a) {
          var k :| 0 <= k < |front| && AssociationInfo(a, false) in front[k].associations;
          assert tables[k] == front[k];
        }
      }
    }
  }

  /** The route-table teardown deletes exactly the described tables with no main
      association. */
  lemma {:induction false} TableTeardownDeletes(tables: seq<TableInfo>)
    ensures forall t: Id :: DeleteRouteTable(t) in TableTeardown(tables) <==> ListsDeletable(tables, t)
    decreases |tables|
  {
    if |tables| > 0 {
      var front := tables[..|tables| - 1];
      var last := tables[|tables| - 1];
      TableTeardownDeletes(front);
      DisassociationsMembers(last.associations);
      var ops := TableTeardown(tables);
      assert ops == TableTeardown(front) + Disassociations(last.associations)
        + (if HasMain(last) then [] else [DeleteRouteTable(last.id)]);
      forall t: Id ensures DeleteRouteTable(t) in ops <==> ListsDeletable(tables, t) {
        if ListsDeletable(tables, t) {
          var k :| 0 <= k < |tables| && tables[k].id == t && !HasMain(tables[k]);
          if k < |front| {
            assert front[k] == tables[k];
          }
        }
        if ListsDeletable(front, t) {
          var k :| 0 <= k < |front| && front[k].id == t && !HasMain(front[k]);
          assert tables[k] == front[k];
        }
      }
    }
  }

  /** The gateway teardown detaches and deletes every described gateway, the
      delete directly after the detach whatever the detach answered, and nothing
      else. */
  lemma {:induction false} GatewayTeardownMembers(gateways: seq<Id>, vpc: Id)
    ensures var ops := GatewayTeardown(gateways, vpc);
      && |ops| == 2 * |gateways|
      && (forall k :: 0 <= k < |gateways| ==>
            ops[2 * k] == DetachInternetGateway(gateways[k], vpc) && ops[2 * k + 1] == DeleteInternetGateway(gateways[k]))
      && (forall g: Id, v: Id :: DetachInternetGateway(g, v) in ops <==> g in gateways && v == vpc)
      && (forall g: Id :: DeleteInternetGateway(g) in ops <==> g in gateways)
    decreases |gateways|
  {
    if |gateways| > 0 {
      var front := gateways[..|gateways| - 1];
      var g := gateways[|gateways| - 1];
      var ops := GatewayTeardown(gateways, vpc);
      GatewayTeardownMembers(front, vpc);
      assert gateways == front + [g];
      assert ops == GatewayTeardown(front, vpc) + [DetachInternetGateway(g, vpc), DeleteInternetGateway(g)];
      forall k | 0 <= k < |gateways|
        ensures ops[2 * k] == DetachInternetGateway(gateways[k], vpc) && ops[2 * k + 1] == DeleteInternetGateway(gateways[k])
      {
        if k < |front| {
          assert gateways[k] == front[k];
        }
      }
      forall h: Id ensures DeleteInternetGateway(h) in ops <==> h in gateways {
        if h in gateways {
          var k :| 0 <= k < |gateways| && gateways[k] == h;
          assert ops[2 * k + 1] == DeleteInternetGateway(h);
        }
      }
      forall h: Id, v: Id ensures DetachInternetGateway(h, v) in ops <==> h in gateways && v == vpc {
        if h in gateways && v == vpc {
          var k :| 0 <= k < |gateways| && gateways[k] == h;
          assert ops[2 * k] == DetachInternetGateway(h, vpc);
        }
      }
    }
  }

  // ------------------------------------------- what the describes report

  lemma {:induction false} AssociationsBelowMembers(c: Cloud, table: Id, n: nat)
    ensures forall a: Id, m: bool :: AssociationInfo(a, m) in AssociationsBelow(c, table, n) <==>
      a < n && a in c.live && c.live[a].Association? && c.live[a].table == table && c.live[a].main == m
    decreases n
  {
    if n > 0 {
      AssociationsBelowMembers(c, table, n - 1);
    }
  }

  /** `info` is a live route table of `vpc` listed with its live associations. */
  predicate Describes(c: Cloud, vpc: Id, info: TableInfo) {
    IsTable(c, info.id) && c.live[info.id].vpc == vpc &&
    info.associations == AssociationsBelow(c, info.id, c.nextId)
  }

  lemma {:induction false} TablesBelowMembers(c: Cloud, vpc: Id, n: nat)
    ensures forall k :: 0 <= k < |TablesBelow(c, vpc, n)| ==>
      TablesBelow(c, vpc, n)[k].id < n && Describes(c, vpc, TablesBelow(c, vpc, n)[k])
    ensures forall t: Id :: t < n && IsTable(c, t) && c.live[t].vpc == vpc ==>
      exists k :: 0 <= k < |TablesBelow(c, vpc, n)| && TablesBelow(c, vpc, n)[k].id == t
    decreases n
  {
    if n > 0 {
      var front := TablesBelow(c, vpc, n - 1);
      TablesBelowMembers(c, vpc, n - 1);
      var ts := TablesBelow(c, vpc, n);
      var t0 := n - 1;
      assert ts == front + (if t0 in c.live && c.live[t0].RouteTable? && c.live[t0].vpc == vpc
                            then [TableInfo(t0, AssociationsBelow(c, t0, c.nextId))] else []);
      forall k | 0 <= k < |ts| ensures ts[k].id < n && Describes(c, vpc, ts[k]) {
        if k < |front| {
          assert ts[k] == front[k];
        } else {
          assert ts[k] == TableInfo(t0, AssociationsBelow(c, t0, c.nextId));
        }
      }
      forall t: Id | t < n && IsTable(c, t) && c.live[t].vpc == vpc
        ensures exists k :: 0 <= k < |ts| && ts[k].id == t
      {
        if t < n - 1 {
          var k :| 0 <= k < |front| && front[k].id == t;
          assert ts[k] == front[k];
        } else {
          assert ts[|front|].id == t;
        }
      }
    }
  }

  /** A main association points at route table `t`. */
  predicate HasMainAssociation(c: Cloud, t: Id) {
    exists a :: a in c.live && c.live[a].Association? && c.live[a].table == t && c.live[a].main
  }

  /** Read against the cloud it describes, the route-table teardown disassociates
      exactly the non-main associations of the VPC's route tables. */
  lemma DescribedDisassociations(c: Cloud, vpc: Id)
    requires Valid(c)
    ensures forall a: Id :: DisassociateRouteTable(a) in TableTeardown(TablesBelow(c, vpc, c.nextId)) <==>
      a in c.live && c.live[a].Association? && !c.live[a].main &&
      IsTable(c, c.live[a].table) && c.live[c.live[a].table].vpc == vpc
  {
    var ts := TablesBelow(c, vpc, c.nextId);
    TablesBelowMembers(c, vpc, c.nextId);
    TableTeardownDisassociates(ts);
    forall a: Id ensures ListsNonMain(ts, a) <==>
      a in c.live && c.live[a].Association? && !c.live[a].main &&
      IsTable(c, c.live[a].table) && c.live[c.live[a].table].vpc == vpc
    {
      if ListsNonMain(ts, a) {
        var k :| 0 <= k < |ts| && AssociationInfo(a, false) in ts[k].associations;
        assert Describes(c, vpc, ts[k]);
        AssociationsBelowMembers(c, ts[k].id, c.nextId);
      }
      if a in c.live && c.live[a].Association? && !c.live[a].main &&
         IsTable(c, c.live[a].table) && c.live[c.live[a].table].vpc == vpc {
        var t := c.live[a].table;
        var k :| 0 <= k < |ts| && ts[k].id == t;
        assert Describes(c, vpc, ts[k]);
        AssociationsBelowMembers(c, t, c.nextId);
        assert AssociationInfo(a, false) in ts[k].associations;
      }
    }
  }

  /** Read against the cloud it describes, the route-table teardown deletes
      exactly the VPC's route tables that no main association points at; in
      particular never the main route table. */
  lemma DescribedTableDeletions(c: Cloud, vpc: Id)
    requires Valid(c)
    ensures forall t: Id :: DeleteRouteTable(t) in TableTeardown(TablesBelow(c, vpc, c.nextId)) <==>
      IsTable(c, t) && c.live[t].vpc == vpc && !HasMainAssociation(c, t)
    ensures forall t: Id :: IsMainTable(c, t) ==> DeleteRouteTable(t) !in TableTeardown(TablesBelow(c, vpc, c.nextId))
  {
    var ts := TablesBelow(c, vpc, c.nextId);
    TablesBelowMembers(c, vpc, c.nextId);
    TableTeardownDeletes(ts);
    forall t: Id ensures ListsDeletable(ts, t) <==> IsTable(c, t) && c.live[t].vpc == vpc && !HasMainAssociation(c, t) {
      if ListsDeletable(ts, t) {
        var k :| 0 <= k < |ts| && ts[k].id == t && !HasMain(ts[k]);
        assert Describes(c, vpc, ts[k]);
        DescribedMainListed(c, ts[k]);
      }
      if IsTable(c, t) && c.live[t].vpc == vpc && !HasMainAssociation(c, t) {
        var k :| 0 <= k < |ts| && ts[k].id == t;
        assert Describes(c, vpc, ts[k]);
        DescribedMainListed(c, ts[k]);
      }
    }
    forall t: Id | IsMainTable(c, t) ensures HasMainAssociation(c, t) {
      var a :| a in c.live && c.live[a] == Association(t, None, true);
    }
  }

  /** A described table has a main association exactly when the cloud has one
      pointing at it. */
  lemma DescribedMainListed(c: Cloud, t: TableInfo)
    requires Valid(c)
    requires t.associations == AssociationsBelow(c, t.id, c.nextId)
    ensures HasMain(t) <==> HasMainAssociation(c, t.id)
  {
    AssociationsBelowMembers(c, t.id, c.nextId);
    if HasMain(t) {
      var i :| 0 <= i < |t.associations| && t.associations[i].main;
      var info := t.associations[i];
      assert AssociationInfo(info.id, true) in t.associations;
      assert c.live[info.id].Association? && c.live[info.id].table == t.id && c.live[info.id].main;
    }
    if HasMainAssociation(c, t.id) {
      var a :| a in c.live && c.live[a].Association? && c.live[a].table == t.id && c.live[a].main;
      assert AssociationInfo(a, true) in t.associations;
      var i :| 0 <= i < |t.associations| && t.associations[i] == AssociationInfo(a, true);
    }
  }

  lemma {:induction false} GatewaysBelowMembers(c: Cloud, vpc: Id, n: nat)
    ensures forall g: Id :: g in GatewaysBelow(c, vpc, n) <==> g < n && g in c.live && c.live[g] == Gateway(Some(vpc))
    decreases n
  {
    if n > 0 {
      GatewaysBelowMembers(c, vpc, n - 1);
    }
  }

  /** Read against the cloud it describes, the gateway teardown detaches and
      deletes exactly the gateways attached to the VPC. */
  lemma DescribedGateways(c: Cloud, vpc: Id)
    requires Valid(c)
    ensures var ops := GatewayTeardown(GatewaysBelow(c, vpc, c.nextId), vpc);
      && (forall g: Id :: DetachInternetGateway(g, vpc) in ops <==> g in c.live && c.live[g] == Gateway(Some(vpc)))
      && (forall g: Id :: DeleteInternetGateway(g) in ops <==> g in c.live && c.live[g] == Gateway(Some(vpc)))
  {
    GatewaysBelowMembers(c, vpc, c.nextId);
    GatewayTeardownMembers(GatewaysBelow(c, vpc, c.nextId), vpc);
  }
}
