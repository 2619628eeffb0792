# VpcManager, modelled in Dafny

This project models `VpcManager` (`lambda/app/vpcops.py`). The class provisions an AWS
VPC environment and tears it down again. The environment is a VPC with DNS support, an
attached internet gateway, a public and a private route table, and a run of subnets
carved out of the VPC's CIDR block. A DynamoDB table keeps one metadata record per
VPC, and callers see that record in a normalised form.

The model follows the class operation by operation:

- `_calculate_subnets` chooses the subnet prefix and renders the first `count` blocks.
  It is a loop over the prefix length in the `Cidr` module's method `CalculateSubnets`, proved against the
  functions `PrefixSearch`, `Partition` and `SubnetStrings`. Parsing and rendering an
  IPv4 CIDR (the dotted-quad forms of `ipaddress.ip_network(s, strict=False)`) are
  functions, with the render-then-parse round trip proved.
- `_normalize_vpc_record` is the function `Records.Normalize`, with its inverse
  `Records.Complete`.
- `create_vpc` is `Manager.VpcManager.CreateVpc`. It makes the same EC2 calls in the
  same order. The first failure ends the `try`. The rollback is then given exactly
  the ids created up to that point, and the record is written only after every call
  succeeded. On success it returns the normalised record it wrote.
- `_rollback_vpc` is `Manager.VpcManager.RollbackVpc`. Each step catches its own
  failure. It is proved equal to the function `Plans.Rollback`, whose requests,
  order, coverage and effect are stated as lemmas.
- `get_vpc`, `list_vpcs`, `update_vpc` and `delete_vpc` are methods of the same class.
  The teardown in `delete_vpc` is proved equal to the function `Plans.Teardown`. Its
  route-table and gateway steps are related to what the describe calls report about
  the cloud.

The EC2 client is `Ec2.Provider`, a class over a `Cloud` value:

- The cloud holds the live resources, their tags, the log of every call with its
  reply, and the next free id.
- A call fails when its position in the log is one of the injected faults (the set
  `failing`). It also fails when EC2 would refuse it in the current state, as
  `Ec2.Permitted` states.
- A failed call changes nothing but the log.

The DynamoDB table is `Store.Table`. Its requests fail in the same injected way.

Where the code and its documented intent disagree, the model follows the code:

- `_rollback_vpc` (lambda/app/vpcops.py:97-140) is meant to remove whatever a failed
  `create_vpc` created, leaving no orphaned resource. But it detaches and deletes the
  gateway inside one `try`. If `attach_internet_gateway` was the failing call, the detach is refused, so
  the gateway is never deleted. `Plans.RollbackKeepsUnattachedGateway` states this.
- `update_vpc` says it merges tags. EC2's `create_tags` does merge
  (`Ec2.MergeTagsLookup`), but the stored `Tags` attribute is replaced wholesale
  (`Records.WithTagsReplaces`).
- `update_vpc` raises `HTTPException`, which `vpcops.py` never imports, so the raise
  itself fails with a `NameError`. Either way the caller gets an exception. The model
  returns `Err(UpdateFailed)`.

## Model

| member | source | states |
|---|---|---|
| Cidr.Network | lambda/app/vpcops.py:82 | `strict=False`: the block keeps the prefix, is aligned to its size and contains the given address (host bits cleared) |
| Cidr.ParseCidr | lambda/app/vpcops.py:82 | every accepted string denotes an aligned IPv4 network with a prefix of at most 32 |
| Cidr.RenderParseRoundTrip | lambda/app/vpcops.py:198 | `str(network)` parses back to the same network, so `_calculate_subnets(str(network), …)` sees the network `create_vpc` parsed |
| Cidr.ReparseParsed | lambda/app/vpcops.py:172-173 | parsing, rendering and parsing again gives the first parse, so the CIDR sent to `create_vpc` and the one parsed agree |
| Cidr.PrefixSearch | lambda/app/vpcops.py:84-88 | the loop stops at the least prefix from the VPC's own on at which the network holds `count` blocks, or at 32 |
| Cidr.PartitionSucceedsIff | lambda/app/vpcops.py:84-93 | the partition exists exactly when `count` is at most the number of /32 blocks of the network (otherwise `ValueError`) |
| Cidr.NetworkSubnetsOutcome | lambda/app/vpcops.py:84-95 | for a parsed network, success iff `count` fits, and on success exactly `max(count, 0)` strings |
| Cidr.RenderedSubnets | lambda/app/vpcops.py:198 | partitioning the rendered network equals partitioning the parsed network |
| Cidr.PartitionWithin | lambda/app/vpcops.py:93 | every planned block is an aligned network inside the VPC's network |
| Cidr.PartitionAscending | lambda/app/vpcops.py:93 | the first planned block starts at the network's address, and the blocks follow one another with a fixed stride, in ascending order, pairwise disjoint |
| Cidr.PlanSubnetsOutcome | lambda/app/vpcops.py:82-95 | the plan succeeds iff the CIDR parses and `count` fits, and returns `max(count, 0)` blocks |
| Cidr.SubnetStringsSound | lambda/app/vpcops.py:93-95 | every returned string parses to a block of the chosen prefix inside the VPC, and no two overlap |
| Cidr.CalculateSubnets | lambda/app/vpcops.py:67-95 | the loop computes `SubnetStrings`; it succeeds iff the CIDR parses and `count` fits; it returns `max(count, 0)` strings |
| Cidr.Subnets | lambda/app/vpcops.py:93 | the first `count` blocks of `network.subnets(new_prefix=p)`, in order |
| Cidr.ExampleParse | lambda/test/test_crud.py:8 | "10.0.0.0/20" parses to the network 10.0.0.0 with prefix 20 |
| Cidr.PlanExample | lambda/test/test_crud.py:8-9 | four subnets of 10.0.0.0/20 are the four /22 blocks at 10.0.0.0, 10.0.4.0, 10.0.8.0 and 10.0.12.0 |
| Cidr.CalculateExample | lambda/test/test_crud.py:8-10 | `_calculate_subnets("10.0.0.0/20", 4)` returns four strings, each starting "10.0." |
| Records.Normalize | lambda/app/vpcops.py:44-65 | no record gives no view; a record gives a view with the same VPC id |
| Records.NormalizeComplete | lambda/app/vpcops.py:56-65 | normalisation loses nothing from a record whose list and region attributes are present; `Complete` is its inverse |
| Records.NormalizeDefaults | lambda/app/vpcops.py:59-64 | attribute by attribute, for any item: missing subnet ids and tags become empty lists and present ones are copied, a missing region becomes the manager's and a present one is kept, the gateway and route tables are copied, absent or not |
| Records.CreatedItem | lambda/app/vpcops.py:212-219 | the written item is keyed by the VPC id and carries region, subnet ids and tags |
| Records.TagsOrEmpty | lambda/app/vpcops.py:216 | `vpc_tags or []`: absent or empty tags give the empty list, other tags are kept |
| Records.CreatedItemRoundTrip | lambda/app/vpcops.py:212-223 | the returned view holds the VPC, its subnet ids in creation order, tags, gateway, both route tables and the region |
| Records.WithTags | lambda/app/vpcops.py:275-280 | after the update the item under the key holds exactly the new tags |
| Records.WithTagsReplaces | lambda/app/vpcops.py:275-280 | the update replaces the tags and leaves every other field as it was; on a missing key it creates an item holding only the key and the tags |
| Records.EffectivePublicCount | lambda/app/vpcops.py:195-196 | the public count is the requested count (or half the total), capped at the total |
| Records.DefaultPublicHalf | lambda/app/vpcops.py:195-196 | with no requested count, the public half is rounded down, so private subnets never number fewer than public ones |
| Records.RouteTableFor | lambda/app/vpcops.py:207-208 | with distinct tables, a subnet joins the public table iff its index is below the public count |
| Records.PublicSubnetsCount | lambda/app/vpcops.py:199-209 | exactly `min(max(public_count, 0), total)` subnets, the first ones, are associated with the public table |
| Records.TwoSubnetsSplit | lambda/test/test_crud.py:16-20 | with two subnets and no public count, subnet 0 is public and subnet 1 private |
| Records.DefaultSubnetTag | lambda/app/vpcops.py:204 | the default subnet tag is a `Name` tag |
| Records.SubnetTag | lambda/app/vpcops.py:204 | a subnet takes the given tag at its index when there is one, and `Subnet-{idx+1}` otherwise |
| Records.DefaultSubnetTagsDistinct | lambda/app/vpcops.py:204 | distinct subnets get distinct default names |
| Ec2.Outcome | lambda/app/vpcops.py:173-209 | a call fails exactly when its fault is injected or EC2 refuses it in the current state |
| Ec2.Apply | lambda/app/vpcops.py:173-209 | every call is logged with its reply, and a failed call changes no resource, tag or id |
| Ec2.ApplyValid | lambda/app/vpcops.py:173-201 | ids stay fresh, and a successful creation answers with a new id that is now live |
| Ec2.RemovalShrinks | lambda/app/vpcops.py:112-140 | a removal creates nothing; when it succeeds, the resource it names is gone (a detached gateway stays, unattached) |
| Ec2.MergeTagsLookup | lambda/app/vpcops.py:273-274 | `create_tags` keeps every key it does not name and takes the request's value for every key it does |
| Ec2.Provider.Request | lambda/app/vpcops.py:173-209 | one boto3 call: the new state is `Apply` of the old one and the reply is its `Outcome` |
| Store.Lookup | lambda/app/vpcops.py:245-246 | `get_item(...).get("Item")` is present iff the key is stored |
| Store.Table.GetItem | lambda/app/vpcops.py:245 | a read changes no item; it fails iff its fault is injected, and otherwise returns the item under the key |
| Store.Table.PutItem | lambda/app/vpcops.py:220 | on success the item replaces whatever was under its key; on failure nothing changes |
| Store.Table.SetTags | lambda/app/vpcops.py:275-280 | on success the item under the key gets exactly the new tags, or is created with them; on failure nothing changes |
| Store.Table.DeleteItem | lambda/app/vpcops.py:359 | on success the key is gone (a missing key is fine); on failure nothing changes |
| Store.Table.Scan | lambda/app/vpcops.py:256 | on success every stored item is listed exactly once, and no other |
| Store.ListItems | lambda/app/vpcops.py:256 | lists the items of the table, each once |
| Plans.RunAll | lambda/app/vpcops.py:112-117 | a loop that catches each failure makes every one of its calls: the log grows by one per request |
| Plans.SubnetDeletions | lambda/app/vpcops.py:112-117 | one `delete_subnet` per subnet id, in the given order |
| Plans.RunAllRemoves | lambda/app/vpcops.py:112-125 | a run of removals creates nothing, and each removal that succeeded leaves its id gone |
| Plans.RemoveGatewayLog | lambda/app/vpcops.py:127-133 | the gateway step makes a detach only when both ids are set, and a delete only when that detach succeeded |
| Plans.RollbackCalls | lambda/app/vpcops.py:97-140 | the rollback makes exactly the requests of `RollbackOps`, in order, after what was logged before |
| Plans.RollbackOrder | lambda/app/vpcops.py:112-140 | rollback requests are all removals and come in dependency order: subnets, route tables, gateway detach, gateway delete, VPC |
| Plans.RollbackCoverage | lambda/app/vpcops.py:112-125 | the rollback deletes every subnet it is given and no other, and every route table id that is set and no other |
| Plans.RollbackGatewayAndVpc | lambda/app/vpcops.py:127-140 | the gateway is detached iff both ids are set, deleted only after a successful detach, and the VPC is deleted iff its id is set |
| Plans.RollbackOnlyRemoves | lambda/app/vpcops.py:97-140 | the rollback never adds a resource or hands out an id |
| Plans.RollbackCleans | lambda/app/vpcops.py:97-140 | when every rollback request succeeds, none of the subnets, route tables, gateway (with a known VPC) or VPC it was given is left |
| Plans.RollbackKeepsUnattachedGateway | lambda/app/vpcops.py:127-133 | a gateway whose attach failed survives the rollback: its detach is refused and the delete in the same `try` never runs |
| Plans.UnattachedDetachRefused | lambda/app/vpcops.py:129-130 | detaching an unattached gateway fails and the gateway step then removes nothing |
| Plans.DeleteVpcKeepsGateway | lambda/app/vpcops.py:135-140 | deleting the VPC never removes a gateway |
| Plans.RollbackNothing | lambda/app/vpcops.py:225-228 | with nothing allocated, the rollback makes no call and changes nothing |
| Plans.TeardownCalls | lambda/app/vpcops.py:307-356 | `delete_vpc` deletes the record's subnets, describes and tears down route tables, describes and tears down gateways, then deletes the VPC; each step runs whatever the earlier ones answered |
| Plans.TableTeardownDisassociates | lambda/app/vpcops.py:316-325 | the route-table teardown disassociates exactly the described non-main associations |
| Plans.TableTeardownDeletes | lambda/app/vpcops.py:326-331 | the route-table teardown deletes exactly the described tables with no main association |
| Plans.GatewayTeardownMembers | lambda/app/vpcops.py:337-348 | each described gateway is detached and then deleted, the delete attempted even when the detach fails, and nothing else |
| Plans.DescribedDisassociations | lambda/app/vpcops.py:315-325 | against the cloud described, exactly the non-main associations of the VPC's route tables are disassociated |
| Plans.DescribedTableDeletions | lambda/app/vpcops.py:315-331 | against the cloud described, exactly the VPC's route tables with no main association are deleted, never the main table |
| Plans.DescribedMainListed | lambda/app/vpcops.py:318-326 | a described table lists a main association iff the cloud has one pointing at it |
| Plans.DescribedGateways | lambda/app/vpcops.py:336-348 | against the cloud described, exactly the gateways attached to the VPC are detached and deleted |
| Manager.VpcManager.constructor | lambda/app/vpcops.py:31-42 | the manager holds its region, EC2 client and table |
| Manager.VpcManager.Invoke | lambda/app/vpcops.py:173-209 | one call in `create_vpc`'s `try`: the log and the cloud grow by that call, the cloud being `RunAll` of the calls so far (one `Apply` more than before), and a reply that is not `Failed` is an id for a creation and plain success otherwise |
| Manager.VpcManager.DeleteSubnets | lambda/app/vpcops.py:112-117 | the rollback's subnet loop attempts every deletion |
| Manager.VpcManager.DeleteTables | lambda/app/vpcops.py:119-125 | the rollback's route-table loop attempts a deletion for each id that is set |
| Manager.VpcManager.RemoveGatewayOf | lambda/app/vpcops.py:127-133 | the rollback's gateway step: a detach, then a delete only when the detach succeeded |
| Manager.VpcManager.RollbackVpc | lambda/app/vpcops.py:97-140 | the cloud after `_rollback_vpc` is `Plans.Rollback` of the cloud before |
| Manager.VpcManager.CreateVpcResource | lambda/app/vpcops.py:173-177 | the cloud is `RunAll` of the calls made; the run is `StageRun` of `VpcCalls`: create on the rendered CIDR, enable DNS support, tag only when tags were given; on success exactly those calls, on failure stopped at the first failed call of that plan; the VPC id is held iff it was created |
| Manager.VpcManager.CreateGateway | lambda/app/vpcops.py:179-181 | the cloud is `RunAll` of the calls made; the run is `StageRun` of create gateway then attach it to the VPC: exactly those calls on success, stopped at the first failure otherwise; the gateway id is held iff it was created, and it is recorded as the gateway |
| Manager.VpcManager.CreatePublicTable | lambda/app/vpcops.py:184-189 | the cloud is `RunAll` of the calls made; the run is `StageRun` of create table, name it `Public-RT`, route 0.0.0.0/0 through the gateway: exactly those on success, stopped at the first failure otherwise; the table id is recorded as the public table |
| Manager.VpcManager.CreatePrivateTable | lambda/app/vpcops.py:191-193 | the cloud is `RunAll` of the calls made; the run is `StageRun` of create table then name it `Private-RT`: exactly those on success, stopped at the first failure otherwise; the table id is recorded as the private table |
| Manager.VpcManager.CreateFront | lambda/app/vpcops.py:173-181 | the VPC, then its gateway: the cloud is `RunAll` of the calls; the ids are those `AllocationOf` the calls picks by role; on success exactly the VPC and gateway calls, on failure `Halted` within them |
| Manager.VpcManager.CreateTables | lambda/app/vpcops.py:184-193 | the public, then the private route table: the cloud is `RunAll` of the calls; each id is recorded in its own role; on success exactly the table calls, on failure `Halted` within them |
| Manager.VpcManager.CreateNetwork | lambda/app/vpcops.py:173-193 | everything before the subnets: the cloud is `RunAll` of the calls and the ids are `AllocationOf` them; on success exactly the setup calls, in order; on failure every call but the last succeeded, the last failed, and the calls are a prefix of the setup plan |
| Manager.VpcManager.CreateSubnetAt | lambda/app/vpcops.py:200-209 | one turn: the cloud is `RunAll` of the calls; `TurnRun`: on success create the subnet on its block, tag it with its given or default tag, associate it with the table its index selects; on failure stopped at the first failed call of that turn; the subnet is appended to the held ids iff created |
| Manager.VpcManager.CreateSubnets | lambda/app/vpcops.py:199-210 | the subnet loop: the cloud is `RunAll` of the calls; subnets are appended in creation order; on success one create, tag and associate per block in order; on failure `Halted` within `SubnetPlan`, so no call follows the failed one |
| Manager.VpcManager.ProvisionSubnets | lambda/app/vpcops.py:195-210 | the cloud is `RunAll` of the calls; no room makes no call; on success exactly `max(count, 0)` subnets on the planned blocks, each turn as `SubnetCalls` states; on failure `Halted` within the subnet plan |
| Manager.VpcManager.AddSubnets | lambda/app/vpcops.py:195-210 | after the setup calls: the cloud is `RunAll` of the subnet calls and the ids are `AllocationOf` the whole run; success meets `ProvisionedOn`; failure meets `StoppedOn` (halted within setup then subnet plan, or no room with nothing after the setup) |
| Manager.VpcManager.AllocateOn | lambda/app/vpcops.py:173-210 | on a parsed network: the cloud is `RunAll` of the calls and the ids are `AllocationOf` them; success meets `ProvisionedOn`; failure meets `StoppedOn`, in the capacity case with the calls exactly the setup calls |
| Manager.VpcManager.Allocate | lambda/app/vpcops.py:172-210 | an unparsable CIDR makes no call and leaves the cloud as it was; otherwise the cloud is `RunAll` of the calls, the ids are `AllocationOf` them, success meets `Provisioned` and failure meets `Stopped` |
| Manager.VpcManager.Provision | lambda/app/vpcops.py:170-223 | the cloud is `RunAll` of the calls and the ids are `AllocationOf` them; the record is written only after every EC2 call succeeded, and it is the record `Provisioned` describes; a failed EC2 run meets `Stopped` |
| Manager.VpcManager.CreateVpc | lambda/app/vpcops.py:142-228 | on failure the table is unchanged, the cloud at the failure is `RunAll` of the calls made, the failure is an unparsable CIDR (no call), a run stopped at its first failed call (`Stopped`) or a failed write after a full provisioning, and the cloud afterwards is `Rollback` of it with each id in its role (`AllocationOf`); on success the cloud is `RunAll` of the full provisioning, the record is stored, and reading it back gives the returned view |
| Manager.VpcManager.GetVpc | lambda/app/vpcops.py:234-246 | the result is the normalised stored record, absent iff no record has that id; a failed read propagates |
| Manager.VpcManager.ListVpcs | lambda/app/vpcops.py:248-257 | every stored record exactly once, each normalised; a failed scan propagates |
| Manager.VpcManager.UpdateVpc | lambda/app/vpcops.py:259-286 | with no or empty tags nothing is touched; otherwise EC2 merges the tags, the stored tags become exactly the new tags, and the update fails iff either request fails |
| Manager.VpcManager.DeleteVpc | lambda/app/vpcops.py:288-364 | a failed read propagates; a missing record makes no call; otherwise the cloud is `Plans.Teardown` of the old one, the record is removed unless its delete fails, and deletion is confirmed regardless |
| Manager.VpcManager.TearDownTables | lambda/app/vpcops.py:314-333 | the route-table step equals `Plans.TablesStage` |
| Manager.VpcManager.TearDownTable | lambda/app/vpcops.py:316-331 | one described table: its disassociations, then its deletion unless it has a main association |
| Manager.VpcManager.Disassociate | lambda/app/vpcops.py:319-325 | each non-main association is disassociated in order, each failure caught |
| Manager.VpcManager.TearDownGateways | lambda/app/vpcops.py:335-350 | the gateway step equals `Plans.GatewaysStage` |
| Manager.StageStops | lambda/app/vpcops.py:173-193 | a stage whose first calls went as planned and whose next call failed, or was its last and succeeded, meets `StageRun` |
| Manager.CollectAfterFirst | lambda/app/vpcops.py:173-193 | calls after a stage's creating call that answer `Done` or fail leave the ids as the creation recorded them |
| Manager.TurnStopsThird | lambda/app/vpcops.py:200-209 | a subnet turn whose create and tag succeeded ends, after its associate call, as `TurnRun` states |
| Manager.FrontJoined | lambda/app/vpcops.py:173-181 | a completed VPC stage followed by the gateway stage holds the VPC and gateway in their roles, and is the VPC and gateway calls exactly or halted within them |
| Manager.TablesJoined | lambda/app/vpcops.py:184-193 | a completed public-table stage followed by the private-table stage records each table in its own role, and is the two tables' calls exactly or halted within them |
| Manager.NetworkJoined | lambda/app/vpcops.py:173-193 | a completed VPC-and-gateway stretch followed by the tables holds all four ids in their roles, and is the setup calls exactly or halted within them |
| Manager.SetupAllocation | lambda/app/vpcops.py:173-193 | the ids picked from the setup calls are the VPC, gateway, public and private table each in its own role, with no subnets |
| Manager.HaltedAfter | lambda/app/vpcops.py:170-210 | a completed first stretch followed by a run halted within the second is halted within the whole plan |
| Manager.SubnetPlanPrefix | lambda/app/vpcops.py:199-210 | the plan for the first blocks is a prefix of the plan for all of them |
| Manager.SubnetHaltStep | lambda/app/vpcops.py:199-210 | a subnet turn that halted ends the loop halted within the plan for every block |
| Manager.SubnetTurnStep | lambda/app/vpcops.py:199-210 | one turn, as the loop sees it: the calls and held ids grow by the turn's, and either the loop goes on having completed the block or ends halted within its plan |
| Manager.NetworkStopped | lambda/app/vpcops.py:173-193 | a setup halted short stops the whole run short (`StoppedOn`) |
| Manager.AddSubnetsStopped | lambda/app/vpcops.py:195-210 | a completed setup followed by a subnet phase halted short, or with no room and no subnet call, stops the whole run short |
| Ec2.OutcomeShape | lambda/app/vpcops.py:173-209 | a request other than a describe fails, or answers a creation with an id and anything else with plain success |

`Manager.Provisioned` (used above) says four things about a successful run:

- the CIDR parses and the network has room for the subnets;
- the log of the run is the setup calls followed by one create, tag and associate per
  planned subnet block, in order;
- each subnet has its given or default tag and the route table its index selects;
- the written record holds the VPC, its subnet ids in creation order, the tags
  (`vpc_tags or []`), the gateway, both route tables and the region.

The create path is stated with these definitions:

- `Manager.AllocationOf(calls)` picks each id by the request that created it: the
  `CreateVpc` reply is the VPC, the `CreateInternetGateway` reply the gateway, the first
  and second `CreateRouteTable` replies the public and private tables, and the
  `CreateSubnet` replies, in order, the subnets.
- `Manager.Halted(calls, plan)` says the calls made the first requests of `plan` in
  order, every one but the last succeeded, and the last failed. So no call follows the
  first failure.
- `Manager.StageRun` says a set-up stage ran its plan up to the first failure; it is
  the plan exactly on success, and the id held is the one the stage created.
  `Manager.TurnRun` says the same of one turn of the subnet loop.
- `Manager.Stopped` (and `StoppedOn`, on a parsed network) says a failed run is
  `Halted` within the setup calls followed by the subnet plan, or, when the network
  has no room for the subnets, made exactly the setup calls.
- Every create-path method states the cloud afterwards as
  `RunAll(old(ec2.State()), OpsOf(calls))`: each call applied in turn to the cloud
  as it was.

## Left out

- Real AWS, boto3, the network, logging and `async` scheduling: the EC2 client and the
  DynamoDB table are stand-ins whose failures come from an injected set of call
  positions plus the refusal rules in `Ec2.Permitted`. Those rules approximate EC2;
  they are not its full semantics.
- `lambda/app/main.py`, `lambda/app/models.py` and `get_token.py` (the HTTP API, request
  validation, authentication) are not part of this model. Neither are environment
  variables (`DB_REGION`, `TABLE_NAME`).
- Resource ids are natural numbers handed out by the provider, not `vpc-…` strings.
- Exception types (`ValueError`, `KeyError`, botocore errors, the `NameError` raised in
  place of `HTTPException`) are collapsed into `Err`/`None`/failed replies.
- Cidr.ParseCidr: netmask and hostmask prefix forms, IPv6, and integer or packed-bytes
  arguments of `ipaddress.ip_network` are rejected rather than accepted.
- Store.Table.Scan: DynamoDB returns at most 1 MB per scan page and `list_vpcs` reads
  only the first page. The model's scan returns every item, so pagination is not
  modelled.
- Manager.VpcManager.CreateVpc: the contract does not state that a run in which no call
  fails always returns a record. Whether EC2 accepts each call depends on the refusal
  rules of the stand-in, so this is left unproved.
- Manager.VpcManager.GetVpc: a stored item always carries its key, so the source's
  `if not record` branch for an empty dictionary is reached only through a missing item.
- Stored items hold only the attributes `create_vpc` and `update_vpc` write; other
  attribute types in the table are not modelled.
- Concurrent requests against the same table or account are not modelled.
