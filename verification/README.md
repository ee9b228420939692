# A model of pharmer

Pharmer creates Kubernetes clusters on cloud providers, applies changes to them and deletes them again.
This project models the parts of it that hold state machines, reconcilers or algorithms, and proves what
they keep. Cloud APIs, the object store and the message queue are environments: finite maps whose calls may
fail. `dafny verify dfyconfig.toml` checks everything.

| files | what they model |
|---|---|
| `AwsAccount`, `AwsProvision`, `AwsStack`, `AwsGroups`, `AwsTeardown`, `AwsPrepare`, `AwsRun`, `AwsDelete`, `AwsRoundTrip` | provisioning and teardown on AWS over a graph of tagged resources that refer to one another; a creation that names a missing resource and a deletion of something still referred to are refused, and every refusal is recorded |
| `Iam` | IAM roles, inline policies and instance profiles |
| `Lifecycle`, `Operations` | the stored phase of a cluster, its machine sets and masters, and the queue handlers that drive it |
| `IngressRules`, `Tags` | ingress-rule comparison, which sorts shared arrays in place, and the tag algebra |
| `Semver`, `UpgradePlan` | version precedence (section 11 of Semantic Versioning 2.0.0) and the upgrade planner |
| `Editor`, `NodeLabels`, `KeyPaths`, `ProviderIds` | text: comment stripping, label printing, dotted paths, provider ids |
| `Droplets`, `Balancers` | the DigitalOcean machine and cluster actuators |
| `Strings`, `Wrappers` | order, sorting, splitting; option and result types |

## Main results

1. **Provision and tear down** (`ProvisionAndTearDown`). From an account that carries nothing of the cluster, and
   when no call fails, PrepareCloud, EnsureMaster and ApplyDelete all succeed, nothing is ever refused, and the
   account and IAM are exactly as they were. The reason is `HighestIsFree`: resources are stacked by rank, each
   rank is deleted only when it is the highest left, and nothing refers to the highest rank.
2. **Runs that fail anywhere** (`AnyRun`). Over any sequence of attempts and teardowns, while instances start and
   stop running, no creation ever names a missing resource, and no lookup of the VPC, the key pair, the load
   balancer, or of a subnet, gateway, NAT gateway, route table or security group in the VPC can find two
   candidates. Instances are the exception: the lookups of master and bastion see running instances only, and
   `EnsureMaster` and `EnsureBastion` say exactly when a second one is launched.
3. **Teardown after failed attempts** (`AttemptsThenTearDown`, `ApplyDelete`). After any sequence of attempts, each
   failing anywhere, a failure-free teardown succeeds exactly when everything in the VPC is listed by one of its
   lookups, there is at most one elastic IP, and a NAT gateway that is recorded exists. What is not listed are a subnet, a route table or a security group
   whose first CreateTags failed (`UntaggedSubnet`), and a NAT gateway that nobody lived to record. Then nothing
   is refused, what was in the account before the first attempt is unchanged, and no lookup finds anything more.
   The VPCs, addresses and gateways of failed attempts that were never tagged or attached are found by no lookup;
   they stay, and stand in nobody's way. Whatever the account and whatever fails, a teardown that returns nil has
   deleted the only VPC it could find, and nothing unlisted had been in it.
4. **Security groups** (`BuiltGroupsSurvive`, `DeleteGroups`). The groups pharmer builds refer to each other, so
   no order of plain deletions clears them; after the revoke loop every order does. A poll only ever removes
   rules and groups, and "done" means that all listed groups are gone.
5. **Queue handlers** (`Run`). Over any sequence of deliveries and redeliveries, with failures at every store, ack
   and cloud call: the body of a create operation runs at most once, and exactly when its message is acked; the
   stored state only moves forward; Done is stored only after an Apply returned nil; whenever the phase Ready was
   stored, all creation steps had just been taken, and a stored Ready was stored after anything else; no teardown starts over a machine set that is not drained.
6. **Deletion** (`RunWithoutCreate`, `Apply`). Without further create messages a stamped cluster stays stamped and
   stays Deleting or Deleted, and an Apply that returns nil ends in Deleted exactly on the providers whose
   teardown stores that phase.
7. **In-place comparison** (`Difference`). Though each comparison sorts arrays that later comparisons read, the
   result is, in order, the rules whose original meaning has no equal on the other side.
8. **Upgrade plans** (`TotalPreorder` and, for the chain of examples in the standard, `SpecificationChain`;
   `OffersAreRight`, `NothingToOffer`), **text** (`HeaderVanishes`, `StripIdentity`, `PrintIsInvertible`,
   `EditVerdict`, `ProviderIdRoundTrip`) and **reconcilers** (`Run` of the droplets, `Converges`) as stated below.

## What the code does that one might not expect

- Storing Done through the SQL operation store has no effect: Done is zero, and the update skips zero columns
  (store/providers/xorm/operation.go:65-67 and vendor/github.com/go-xorm/xorm/statement.go:363-367). `Sound` says
  that on such a store no operation ever becomes Done.
- A create message whose operation was stored as Running but whose ack failed is never acted on or acked again:
  the contract of `Operations.Server.Create` says that nothing changes unless the operation is Pending.
- A failed ApplyScale leaves the phase Ready; `Retries` says that no later Apply scales the cluster.
- On AWS ApplyDelete never stores Deleted, and Delete takes a Deleted cluster back to Deleting.
- CreateCluster on a cluster stamped for deletion stores it as Pending exactly when all its store calls go through.
- A master whose wait failed, or a bastion that has only just been launched, is not found while it is not running, so
  a retry launches another (`SecondMaster`, and the contracts of `EnsureMaster` and `EnsureBastion`).
- setupRouteTable returns no error and no id exactly when tagging fails (cloud/providers/aws/cloud.go:883-885;
  `EnsureTable`). setupNatGateway reads the new gateway before it looks at the error, so it crashes exactly when
  there is none (`SetupNat`).
- createIAMProfile reports success, with nothing created, when it cannot open a session (`CreateProfile`).
  ensureLoadBalancer never uses its lookup and always asks for a balancer (`EnsureBalancer`).
- releaseReservedIP releases the first address only, so it succeeds from at most one that nothing holds
  (`ReleaseAddress`): two attempts whose NAT gateway could not be created leave addresses that no teardown gets past
  (`AddressesPileUp`), and so does a NAT gateway that an attempt made but did not live to record (`ApplyDelete`).
- Teardown lists subnets, route tables and security groups by a tag, so one that was created but not tagged keeps its
  VPC from being deleted, however often teardown is repeated (`UntaggedSubnet`).
- A failed lookup of a droplet is reported as "does not exist"; `CreateDuplicatesExactly` says when that makes a
  second droplet. createLoadBalancer dereferences a missing balancer when its own lookup fails.
- The exported check of an edit panics on raw patches in which a restricted path runs through something that is not an
  object; `EditVerdict` and, for clusters, `ClusterVerdict` say exactly when. Patches between two stored clusters are
  never of that kind (`DiffOfClusters`). But the restricted paths under `spec` name no field of a cluster's spec
  (apis/v1alpha1/cluster.go:54-58), so `metadata` is all that they protect (`OnlyMetadataProtected`), and an edit goes
  through exactly when it changes nothing but the spec (`EditAccepted`).
- The owned key of a cluster whose name is not made of plain path segments is not the key that is looked up
  (`KeysAgree`).

## Model

| member | source | states |
|---|---|---|
| AwsAccount.Account.AddTags | cloud/providers/aws/cloud.go:461-487 | exactly the tags added before the first failure are there, in whatever order the map yields them |
| AwsProvision.AddedKeepsUnique | cloud/providers/aws/apply.go:264-375 | a creation guarded by a lookup that found nothing, even one left half done, makes no guarding lookup ambiguous |
| AwsProvision.EnsureVpc | cloud/providers/aws/apply.go:264-281 | an existing VPC is returned untouched, a new one is complete or no id is returned; nothing else changes |
| AwsProvision.EnsureSubnet | cloud/providers/aws/apply.go:283-314 | the same for the public and the private subnet |
| AwsProvision.SetupGateway | cloud/providers/aws/cloud.go:715-749 | created loose, attached, tagged; whatever fails, at most a part of the wanted gateway is left |
| AwsProvision.EnsureGateway | cloud/providers/aws/apply.go:316-332 | the attached gateway of the VPC is found or made, and stays the only one |
| AwsProvision.SetupNatGateway | cloud/providers/aws/cloud.go:782-819 | address first, gateway second; a failure leaves at most a part of each; a crash leaves the address |
| AwsProvision.SetupNat | cloud/providers/aws/cloud.go:790-819 | crashes exactly when no gateway was created; otherwise the gateway, or at most a part of it, is there |
| AwsProvision.EnsureNat | cloud/providers/aws/apply.go:334-349 | a live NAT gateway is found or made, and stays the only one the lookup finds |
| AwsProvision.SetupTable | cloud/providers/aws/cloud.go:857-927 | an id means a table that is tagged, routed and associated; success without an id exactly when the new table lacks a tag |
| AwsProvision.EnsureTable | cloud/providers/aws/apply.go:351-375 | the route table of a side is found or made, and stays the only one |
| AwsGroups.IngressRules | cloud/providers/aws/cloud.go:1013-1146 | the rules of each role name only the recorded groups |
| AwsGroups.Detect | cloud/providers/aws/cloud.go:1331-1357 | fills in the missing ids from truthful lookups, keeps the recorded ones, succeeds when every group exists |
| AwsGroups.SetupGroups | cloud/providers/aws/cloud.go:929-998 | from no groups: three groups with each other's rules; only groups are ever touched |
| AwsGroups.EnsureGroups | cloud/providers/aws/apply.go:377-398 | the same behind the lookup of the control-plane group |
| AwsTeardown.CycleSurvives | cloud/providers/aws/cloud.go:1029-1141 | two groups that name each other survive every order of deletions |
| AwsTeardown.BuiltGroupsSurvive | cloud/providers/aws/cloud.go:1029-1141 | the groups that setup builds are such a pair |
| AwsTeardown.RevokedIsFree | cloud/providers/aws/cloud.go:1602-1624 | once their rules are revoked, no listed group is referred to |
| AwsTeardown.SweepClears | cloud/providers/aws/cloud.go:1626-1634 | then one pass of deletions in any order clears them all |
| AwsTeardown.LighterBurden | cloud/providers/aws/cloud.go:1580-1638 | groups plus rules never grow |
| AwsTeardown.PollGroups | cloud/providers/aws/cloud.go:1580-1638 | one poll touches only listed groups; done means they are gone; without faults it is done and nothing is refused |
| AwsTeardown.DeleteGroups | cloud/providers/aws/cloud.go:1572-1639 | the same over all polls, listing the groups anew each time |
| AwsTeardown.ShrunkKeepsUnique | cloud/providers/aws/cloud.go:1543-1860 | whatever teardown deletes, detaches or revokes, no guarding lookup becomes ambiguous |
| AwsTeardown.DeleteEach | cloud/providers/aws/cloud.go:1661-1669 | a delete loop removes a prefix of its list; unreferenced targets are never refused |
| AwsTeardown.DeleteInstances | cloud/providers/aws/cloud.go:1813-1860 | success means no instance of the role is left |
| AwsTeardown.DetachAndDeleteFound | cloud/providers/aws/cloud.go:1673-1753 | gateways and route tables are detached, then deleted; nothing else is touched |
| AwsTeardown.DeleteNat | cloud/providers/aws/cloud.go:1755-1786 | no recorded id means nothing to do; otherwise exactly that gateway goes |
| AwsTeardown.ReleaseAddress | cloud/providers/aws/cloud.go:1543-1570 | success exactly when no address is left; only from at most one address that nothing holds, and without faults always from that |
| AwsPrepare.EnsureKey | cloud/providers/aws/apply.go:249-262 | an existing key pair is kept, otherwise one is imported |
| AwsPrepare.EnsureBastion | cloud/providers/aws/apply.go:400-416 | a running bastion is kept, otherwise one is launched: a second one exactly when there is one and none runs |
| AwsPrepare.EnsureBalancer | cloud/providers/aws/apply.go:418-456 | creation is asked for every time; an existing balancer stays the only one |
| AwsPrepare.AuthorizedProgress | cloud/providers/aws/cloud.go:929-998 | mutually referring groups keep the stack of ranks, in which only groups refer to their own rank |
| AwsRun.PrepareCloud | cloud/providers/aws/apply.go:36-132 | whatever fails, nothing is refused and lookups stay unique; a clean failure-free run succeeds and records what teardown needs |
| AwsRoundTrip.StartMaster | cloud/providers/aws/cloud.go:1385-1473 | launches one instance that refers to existing resources only; it runs if it is seen to come up, and stays as launched otherwise |
| AwsRoundTrip.EnsureMaster | cloud/providers/aws/apply.go:153-228 | a running master is kept; a second one of the name is launched exactly when the launch goes ahead while one exists that does not run |
| AwsRoundTrip.SecondMaster | cloud/providers/aws/cloud.go:1359-1492 | a failed wait and a retry in which no call fails: two masters of one name |
| AwsDelete.HighestIsFree | cloud/providers/aws/apply.go:458-526 | nothing refers to the highest rank that is left |
| AwsDelete.StepKeepsFalling | cloud/providers/aws/apply.go:458-526 | deleting what a teardown lookup lists keeps the stack and leaves other resources alone |
| AwsDelete.DeleteNetwork | cloud/providers/aws/apply.go:485-526 | whatever fails, success means that the VPC is gone, that nothing in it was unlisted, that there was at most one address, and that the recorded NAT gateway existed |
| AwsDelete.ApplyDelete | cloud/providers/aws/apply.go:458-526 | in any run, success means that the only VPC found is gone with nothing unlisted in it; over what attempts leave, a failure-free run succeeds exactly when nothing is in its way, and then restores the account with nothing refused |
| AwsDelete.UntaggedSubnet | cloud/providers/aws/cloud.go:579-690 | a subnet whose first tag could not be added makes a failure-free teardown fail |
| AwsDelete.AddressesPileUp | cloud/providers/aws/cloud.go:782-819 | two attempts whose gateway cannot be created, and a failure-free teardown that fails |
| AwsRoundTrip.AnyRun | cloud/providers/aws/apply.go:36-526 | any sequence of attempts and teardowns, failing anywhere and beginning with any stored record, keeps the lookups of VPC, key pair, balancer and everything inside the VPC unique, instances apart; nothing is refused but deletions of resources in use |
| AwsStack.InternalTended | cloud/providers/aws/cloud.go:579-1011 | a creation inside the VPC, complete or given up half-way, leaves the cluster's resources stacked by rank over an untouched account |
| AwsStack.VpcTended | cloud/providers/aws/cloud.go:434-487 | a VPC without the tags it is found by is in nobody's way |
| AwsStack.LooseTended | cloud/providers/aws/cloud.go:715-819 | so is anything that no lookup finds and that refers to nothing, such as a gateway that was not attached |
| AwsRoundTrip.AttemptsThenTearDown | cloud/providers/aws/apply.go:36-526 | any attempts, failing anywhere, then a failure-free teardown: it succeeds exactly when nothing is in its way, and then what was there before the attempts is unchanged and nothing more is found |
| AwsRoundTrip.ProvisionAndTearDown | cloud/providers/aws/apply.go:36-526 | a failure-free run restores account and IAM, with nothing refused |
| Iam.PolicyNamesAgree | cloud/providers/aws/cloud.go:233-279 | for every cluster name, the policy names made by replacing text are the names deleted |
| Iam.Store.CreateProfile | cloud/providers/aws/cloud.go:281-371 | without a session success and nothing created; with one, success means the role with its policies and the profile holding it |
| Iam.Store.EnsureProfiles | cloud/providers/aws/cloud.go:207-231 | failures leave only names that teardown knows, and nothing of others changes |
| Iam.Store.DeleteRolePolicies | cloud/providers/aws/cloud.go:238-279 | the role has no policy and no profile left when it is deleted, so neither deletion is refused |
| Iam.Store.DeleteProfiles | cloud/providers/aws/cloud.go:233-236 | both roles and profiles are gone, with nothing refused |
| Iam.SetupsThenTeardown | cloud/providers/aws/cloud.go:207-371 | any number of faulty setups and one teardown leave IAM as it was |
| Lifecycle.NodeCount | cloud/apply.go:412-418 | the sum of the replicas as a signed 32-bit integer |
| Lifecycle.Store.Delete | cloud/delete.go:34-47 | stamps the stored cluster and makes it Deleting, or changes nothing |
| Lifecycle.Scope.CreateCluster | cloud/create.go:36-116 | what is stored and what is only in memory when any of its calls fails; which masters exist; when it breaks the promise of a stamp |
| Lifecycle.Scope.CreateMasterMachines | cloud/create.go:118-140 | the masters below the first failure are stored; success means all of them, none of which was there |
| Lifecycle.Scope.SetMasterSku | cloud/apply.go:244-283 | success exactly when no call fails, and then every stored master has the SKU for the node count |
| Lifecycle.Scope.ApplyCreate | cloud/apply.go:111-191 | Ready is stored exactly when every call goes through, in the order of `Steps`; a failure leaves the phase as it was stored or as it is in memory |
| Lifecycle.WithoutTwice | cloud/apply.go:318-341 | removing sets one name at a time is removing them all at once |
| Lifecycle.Scope.ScaleSets | cloud/apply.go:318-341 | exactly the stamped sets before the first failure are removed |
| Lifecycle.Scope.ApplyScale | cloud/apply.go:285-346 | success removes every stamped set; a managed provider scales itself |
| Lifecycle.Scope.DrainSets | cloud/apply.go:83-97 | success exactly when no call fails; then every set has no replicas and a stamp; a failure leaves a drained prefix |
| Lifecycle.Scope.ApplyDelete | cloud/delete.go:49-68 | runs only over drained sets; success exactly when no call fails, and ends in Deleted or Deleting by provider |
| Lifecycle.Scope.Apply | cloud/apply.go:33-109 | what is refused, what nil means for log and phase, when Ready is stored, when teardown starts, what a stamp implies |
| Lifecycle.Retries | cloud/apply.go:69-104 | a Ready cluster without a stamp is never scaled again, however often it is applied |
| Lifecycle.VouchedSteps | cloud/apply.go:111-191 | however far creation gets, every Ready that was stored ends an uninterrupted run of its steps |
| Lifecycle.MarkedCreate | cloud/apply.go:182-186 | and a stored Ready was stored after anything else was |
| Operations.SoundStart | apiserver/create.go:46-62 | storing Running, acking and calling the body of a Pending operation keeps the operations sound |
| Operations.SoundApplied | apiserver/apply.go:25-37 | noting a successful Apply, and storing Done after it, keeps the operations sound |
| Operations.Server.ApplyCluster | apiserver/apply.go:25-37 | Done is stored only after Apply returned nil, and not at all where zero values are skipped |
| Operations.Server.Create | apiserver/create.go:26-79 | unless Pending, nothing changes and nothing is acked; otherwise exactly one call of the body; without failures the cluster ends Ready |
| Operations.Server.Retry | apiserver/retry.go:24-63 | acks, then applies; keeps clusters in order and stamps kept |
| Operations.Server.Delete | apiserver/delete.go:25-70 | stamps before the ack, then applies the stamped cluster; success ends in Deleting or Deleted |
| Operations.Server.Deliver | apiserver/create.go:26-79 | one delivery to any handler keeps the operations sound |
| Operations.Run | apiserver/create.go:46-75 | any deliveries: bodies at most once, states forward, Done after Apply, every Ready right after its steps and since anything else was stored, teardown after draining |
| Operations.RunWithoutCreate | cloud/delete.go:34-68 | without create messages a stamped cluster stays stamped and Deleting or Deleted |
| IngressRules.SameStrings | apis/v1alpha1/aws/types.go:320-344 | true exactly when the two arrays hold the same multiset; sorting loses nothing |
| IngressRules.IngressRule.Equals | apis/v1alpha1/aws/types.go:320-351 | true exactly when the rules mean the same |
| IngressRules.HasEqual | apis/v1alpha1/aws/types.go:302-309 | the inner loop finds an equal rule exactly when one exists, in spite of the sorting |
| IngressRules.Unmatched | apis/v1alpha1/aws/types.go:301-317 | the positions, in order, of what has no equal on the other side |
| IngressRules.Difference | apis/v1alpha1/aws/types.go:301-317 | returns exactly those rules, by their meaning before any sorting |
| Semver.TotalPreorder | cloud/version.go:291-301 | precedence is a total preorder, and versions tie exactly when they agree up to build metadata |
| UpgradePlan.GetAvailableUpgrades | cloud/upm.go:48-146 | fails exactly when a needed version cannot be read; otherwise the plan that the order dictates |
| UpgradePlan.OffersAreRight | cloud/upm.go:90-146 | patch offers are above the cluster with a kubeadm not below them; stable offers are not below the cluster; two offers are ordered |
| UpgradePlan.NothingToOffer | cloud/upm.go:90-146 | empty exactly when stable is below the cluster or all three versions tie |
| UpgradePlan.ComputeKubeletVersions | cloud/version.go:273-284 | the counts are the multiplicities modulo 2^32 |
| UpgradePlan.TallyIsExact | cloud/version.go:273-284 | below 2^32 nodes the counts are exact and add up to the nodes |
| UpgradePlan.KubeletsDiffer | apis/v1alpha1/upgrade.go:46-59 | true exactly when some node runs another version than the target |
| UpgradePlan.SortedSlice | cloud/upm.go:405-412 | the keys, strictly ascending |
| Editor.ManualStrip | utils/editor/editor.go:214-226 | keeps the lines that are not comments, with their newlines |
| Editor.StripLeavesNoComment | utils/editor/editor.go:214-226 | no comment line is left |
| Editor.StripIdentity | utils/editor/editor.go:214-226 | changes exactly the texts that have a comment line |
| Editor.StripIdempotent | utils/editor/editor.go:214-226 | stripping twice is stripping once |
| Editor.WriteTo | utils/editor/editor.go:176-194 | prints the preamble and the reasons as marked lines |
| Editor.HeaderVanishes | utils/editor/editor.go:176-226 | for any newline-free reasons, stripping header and body is stripping the body |
| NodeLabels.Values | apis/v1alpha1/node_labels.go:39-65 | the wanted labels in key order, whatever order the map yields |
| NodeLabels.FilterThenPrint | apis/v1alpha1/node_labels.go:39-65 | filtering while printing prints the filtered map |
| NodeLabels.PrintIsInvertible | apis/v1alpha1/node_labels.go:67-69 | splitting on ',' and the first '=' gives the map back |
| KeyPaths.CheckWalks | utils/util.go:74-83 | the split-and-join recursion agrees with walking the segments, and panics exactly at a blocked path |
| KeyPaths.CheckEdit | utils/util.go:60-107 | the first precondition that does not hold decides |
| KeyPaths.EditVerdict | utils/util.go:60-107 | rejected exactly when a restricted path is fully present and none is blocked before it, panics exactly when one is blocked and none present before it, accepted otherwise |
| KeyPaths.ClusterVerdict | utils/util.go:41-107 | the verdict on every patch of a cluster, spelled out |
| KeyPaths.DiffDiffers | cmds/cloud/edit_cluster.go:243-250 | the merge patch has exactly the fields that differ, and is empty for equal objects only |
| KeyPaths.DiffOfClusters | apis/v1alpha1/cluster.go:47-58 | a patch between two clusters has an object for its spec, without any restricted field |
| KeyPaths.OnlyMetadataProtected | cmds/cloud/edit_cluster.go:219-262 | between two clusters the restricted fields never make the check panic, and make it refuse exactly when metadata differs |
| KeyPaths.EditAccepted | cmds/cloud/edit_cluster.go:243-262 | an edit goes through exactly when nothing but the spec changes |
| Tags.KeysAgree | apis/v1alpha1/aws/tags.go:38-42 | the key looked up is the key written exactly for names of plain path segments |
| Tags.Build | apis/v1alpha1/aws/tags.go:181-201 | every key has the value asked for it, otherwise its additional value |
| Tags.BuiltIsOwned | apis/v1alpha1/aws/tags.go:38-48 | built tags are owned exactly when the lifecycle is |
| Tags.Difference | apis/v1alpha1/aws/tags.go:56-67 | the pairs that the other map lacks |
| Tags.NothingMissing | apis/v1alpha1/aws/tags.go:56-67 | empty exactly when the other map has every pair |
| Tags.Ensure | apis/v1alpha1/aws/tags.go:126-154 | after success nothing wanted is missing and nothing unrelated is lost; equal tags need no call |
| ProviderIds.IntRoundTrip | cloud/providers/digitalocean/cloud.go:275-291 | parsing undoes printing for every 64-bit integer |
| ProviderIds.ProviderIdRoundTrip | cloud/providers/digitalocean/machine_actuator.go:208-210 | the printed provider id parses back to the droplet's id |
| ProviderIds.AcceptedIds | cloud/providers/digitalocean/cloud.go:275-291 | exactly which texts are accepted, and as which id |
| Droplets.Project.CreateInstance | cloud/providers/digitalocean/cloud.go:189-230 | a droplet stays when the wait for it fails |
| Droplets.Project.InstanceIfExists | cloud/providers/digitalocean/cloud.go:232-252 | finds a droplet exactly when one exists and neither call fails |
| Droplets.Project.Create | cloud/providers/digitalocean/machine_actuator.go:82-135 | creates exactly when the lookup saw nothing; success records the id of the machine's droplet |
| Droplets.Project.Update | cloud/providers/digitalocean/machine_actuator.go:221-256 | the same for an update that falls back to creation |
| Droplets.Project.Delete | cloud/providers/digitalocean/machine_actuator.go:196-219 | removes at most the droplet of that name, and always reports success |
| Droplets.CreateDuplicatesExactly | cloud/providers/digitalocean/machine_actuator.go:258-270 | a second droplet of a name appears exactly when a lookup failed on an existing one and creation went ahead |
| Droplets.Run | cloud/providers/digitalocean/machine_actuator.go:82-256 | any sequence of calls with truthful lookups keeps one droplet per name |
| Balancers.Project.CreateLoadBalancer | cloud/providers/digitalocean/cloud.go:293-319 | creates only when its own lookup finds nothing; crashes exactly when that lookup fails |
| Balancers.Project.Reconcile | cloud/providers/digitalocean/cluster_actuator.go:67-120 | one success settles the balancer; from a settled one no call writes anything |
| Balancers.NeverSecond | cloud/providers/digitalocean/cloud.go:293-420 | no Reconcile makes a second balancer of the name |
| Balancers.Converges | cloud/providers/digitalocean/cluster_actuator.go:67-120 | any run, failing anywhere: never a second balancer, and at most one write in all, which settles it |

## Left out

- AnyRun: lookups are truthful and deletions visible at once, as a caller of AWS would hope; a lookup that lies makes
  a second resource.
- AttemptsThenTearDown: over attempts only; of a teardown that fails half-way and is repeated, only what `AnyRun` and
  the first half of `ApplyDelete` say is proved. Instances of others do not change meanwhile.
- ApplyDelete: a teardown that succeeds leaves behind what no lookup finds, which counts as part of the account.
- AnyRun: says nothing about how many instances or elastic IPs there are, since the code does leave several behind;
  `EnsureMaster`, `EnsureBastion` and `ReleaseAddress` say when and with what effect.
- AnyRun: does not say that a half-built set of security groups is completed, since the code does not.
- DetachAndDeleteFound: main route tables, which are skipped rather than deleted, are not part of the model.
- SetupNatGateway: a crash ends the attempt as an error does; the process is not part of the model.
- SameStrings: arrays are identical or disjoint. Go slices that overlap in part of one backing array cannot be
  expressed; sorting one of them would change what the other holds. The same goes for the following three.
- Equals: no partly overlapping slices.
- HasEqual: no partly overlapping slices.
- Difference: no partly overlapping slices.
- Converges: the request is a parameter; how its fields are filled in is not modelled.
- ProvisionAndTearDown: holds without worker machines and without failures; main route-table associations, the
  account's default VPC and waiting between polls are not part of the model.
- EnsureBalancer: what AWS answers when the balancer exists is left open.
- Run: handlers run one at a time; the code has no locks between its three subscriptions.
- Run: an operation's user owns its cluster, so the lookups by id and by name see the same record.
- ApplyCreate: which provider calls store the cluster on the way is left to the environment (`saves`), and covers
  every provider; the SKU table is a parameter.
- ApplyScale: how a managed provider scales is left to the environment (`drops`).
- ApplyDelete: deleting the workers through the cluster API, whose errors are only logged and whose wait for machines
  does not wait, has no effect on the store and is not modelled.
- DiffDiffers: lists are compared as a whole, and errors of the merge-patch library are not part of the model.
- EditAccepted: clusters that print the same are told apart earlier, by their text.
- Droplets.Run: needs truthful lookups; `CreateDuplicatesExactly` is the exact condition for one call.
- Names that pharmer formats from the cluster name are terms, so that two of them are equal only when built
  alike; the text itself matters in `Iam`, `Tags` and `ProviderIds` and is modelled there.
- A failed store or cloud write is one that did not happen. Text is Unicode characters, not bytes. Polls are bounded.
- ApplyUpgrade and the upgrade scripts for masters and nodes: no path through Apply reaches them.
- Command line, printers, describers, startup scripts, certificates, SSH, the store back ends, generated code, SKU and
  CNI tables, providers other than AWS and DigitalOcean beyond what `Lifecycle` says of all of them.
- Version parsing: `Semver` starts from parsed versions.
