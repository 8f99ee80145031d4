# Launch templates, node-class admission and interruption events

A model of three parts of a Kubernetes node autoscaler for a cloud provider of
virtual machines:

- **Launch-template provisioning.** The node class is the provider's node
  template; the node pool is its provisioner. The model covers:
  - choosing an image for each group of instance types;
  - planning the block-device mappings;
  - merging tags;
  - rendering the bootstrap user data for each image family (AL2, Ubuntu,
    Bottlerocket, Windows, Custom);
  - choosing network interfaces, the instance profile and monitoring;
  - the cache of created launch templates, including how it recovers when
    the fleet rejects a template that was deleted behind its back.
- **Node-class admission and hashing.** The rules that refuse a malformed
  node class, and the hash used to detect drift.
- **Interruption events.** The Kubernetes events recorded when the
  interruption controller receives a spot-interruption warning, a rebalance
  recommendation, a stop, a termination or a health signal.

The test suites are the ground truth. The implementation behind them is not
part of this model. The model states the behaviour those suites require.
Where a suite leaves something open, the model fixes one behaviour and
says so under "Left out".

Modules, one per file:

| module | file | concern |
|---|---|---|
| `Wrappers` | wrappers.dfy | `Option`, `Result` |
| `Apis` | apis.dfy | node-class spec, selector terms, quantities, block devices |
| `Validation` | validation.dfy | admission of a node class |
| `NodeClassHash` | hash.dfy | the drift hash |
| `BlockDevicePlanner` | blockdevices.dfy | block-device mappings of a template |
| `TagMerge` | tags.dfy | tags of everything a launch creates |
| `AmiSelection` | amiselection.dfy | image requirements, the newest bootable image per instance type |
| `Bootstrap` | bootstrap.dfy | kubelet flags, bootstrap arguments, user data per family |
| `LaunchTemplates` | launchtemplate.dfy | template data, template cache, fleet launch with retry |
| `InterruptionEvents` | events.dfy | interruption events |

Several things that touch the outside world become parameters:
- splitting a user's MIME archive;
- reading a Bottlerocket TOML file;
- the subnets and security groups the resolvers found;
- the instance types offered.

The cloud account is a field of the provider state.

## Model

| member | source | states |
|---|---|---|
| Validation.Validate | pkg/apis/v1beta1/suite_test.go:70-483 | A node class has no findings exactly when it conforms to every rule: Windows families carry no user data; no tag uses a restricted key; the subnet and security-group lists are non-empty; every selector term of every list is well formed |
| Validation.TagEntryProblemsExact | pkg/apis/v1beta1/suite_test.go:160-187 | A term's tag map is clean exactly when it is non-empty and has neither an empty key nor an empty value |
| Validation.SubnetTermProblemsExact | pkg/apis/v1beta1/suite_test.go:127-224 | A subnet term is clean exactly when it selects by exactly one of tags and id, and its tags (if any) are well formed |
| Validation.SecurityGroupTermProblemsExact | pkg/apis/v1beta1/suite_test.go:225-350 | A security-group term is clean exactly when it selects by exactly one of tags, id and name, and its tags (if any) are well formed |
| Validation.AmiTermProblemsExact | pkg/apis/v1beta1/suite_test.go:351-483 | An AMI term is clean exactly when it sets at least one of tags, id, name and SSM parameter, and an id excludes every other field, owner included |
| Validation.TermListErrorsExact | pkg/apis/v1beta1/suite_test.go:188-212 | A finding is reported for a list at index i exactly when term i of that list has that problem |
| Validation.TermListErrorsEmpty | pkg/apis/v1beta1/suite_test.go:188-212 | A term list yields no finding exactly when every term in it, the last included, is clean |
| Validation.InvalidSubnetTermRefuses | pkg/apis/v1beta1/suite_test.go:188-212 | One bad subnet term at any position produces a finding at that position, so the node class is refused |
| Validation.InvalidSecurityGroupTermRefuses | pkg/apis/v1beta1/suite_test.go:294-318 | One bad security-group term at any position produces a finding at that position |
| Validation.InvalidAmiTermRefuses | pkg/apis/v1beta1/suite_test.go:420-444 | One bad AMI term at any position produces a finding at that position |
| NodeClassHash.HashEqualIff | pkg/apis/v1beta1/suite_test.go:484-556 | Two node classes hash alike exactly when their static fields agree: AMI family, user data, role, tags, block devices up to order, monitoring, metadata options, context, instance profile |
| NodeClassHash.HashIgnoresSelectorTerms | pkg/apis/v1beta1/suite_test.go:529-550 | Replacing the subnet, security-group or AMI selector terms never changes the hash |
| NodeClassHash.HashIgnoresMappingOrder | pkg/apis/v1beta1/suite_test.go:512-528 | A permutation of the block-device mappings keeps the hash |
| NodeClassHash.HashSeesStaticFields | pkg/apis/v1beta1/suite_test.go:512-528 | Changing any single static field (AMI family, user data, role, instance profile, tags, block devices as a multiset, monitoring, metadata options, context) changes the hash, so drift is detected |
| NodeClassHash.HashTestEntries | pkg/apis/v1beta1/suite_test.go:512-556 | All ten drift entries of the hash table (role, user data, tags, metadata options, block devices, context, detailed monitoring, AMI family, reordered tags, reordered mappings) differ from the base node class, and an AMI-selector change does not |
| BlockDevicePlanner.CeilGiB | pkg/providers/launchtemplate/suite_test.go:497-533 | The result is the least whole number of GiB holding the bytes |
| BlockDevicePlanner.GibiSizeKept | pkg/providers/launchtemplate/suite_test.go:447-496 | A size given in Gi is written unchanged |
| BlockDevicePlanner.GigaSizesRoundUp | pkg/providers/launchtemplate/suite_test.go:497-533 | 200G becomes 187 GiB, 4G and 2G stay 4 and 2, Gi sizes are kept |
| BlockDevicePlanner.ConvertEbs | pkg/providers/launchtemplate/suite_test.go:447-496 | Every EBS field is carried over; the size becomes whole GiB, rounded up |
| BlockDevicePlanner.ConvertMapping | pkg/providers/launchtemplate/suite_test.go:447-496 | The device name is kept and the EBS part converted as above |
| BlockDevicePlanner.ConvertAll | pkg/providers/launchtemplate/suite_test.go:447-496 | One request per mapping, in order, each converted from its mapping |
| BlockDevicePlanner.Plan | pkg/providers/launchtemplate/suite_test.go:433-595 | Explicit mappings are used, in order and converted, for every family, Custom included |
| BlockDevicePlanner.FamilyDefaults | pkg/providers/launchtemplate/suite_test.go:433-564 | Without mappings: AL2 gets one encrypted 20 GiB gp3 root volume; Bottlerocket gets a 4 GiB volume and then a 20 GiB one; Custom gets none |
| BlockDevicePlanner.PlanIdempotent | pkg/providers/launchtemplate/suite_test.go:497-533 | Feeding a plan back in as explicit Gi mappings reproduces it exactly |
| TagMerge.MergeAllKeys | pkg/providers/launchtemplate/suite_test.go:367-430 | A key is merged exactly when some source has it |
| TagMerge.MergeAllLastWins | pkg/providers/launchtemplate/suite_test.go:398-430 | A merged key has the value of the last source that has it |
| TagMerge.LaunchTags | pkg/providers/launchtemplate/suite_test.go:296-430 | The keys are the union of the default Name, the settings tags, the node-class tags and the controller's own tags. The controller's tags always win; node-class values beat settings values, which beat the default Name |
| TagMerge.TagSpecifications | pkg/providers/launchtemplate/suite_test.go:321-343 | The same tags go to the instance, its volumes and the fleet |
| TagMerge.ControllerTagsKept | pkg/providers/launchtemplate/suite_test.go:296-320 | Whatever the settings and the node class say, the provisioner-name, managed-by and cluster-ownership tags carry the controller's values |
| TagMerge.StaticKeysRestricted | pkg/apis/v1beta1/suite_test.go:112-125 | For a well-formed cluster name, every key the controller owns is one that node-class admission refuses |
| TagMerge.ValidNodeClassTagsKept | pkg/providers/launchtemplate/suite_test.go:321-343 | A node class that passes tag admission never collides with the controller's tags, so each of its tags reaches the launch with its own value |
| TagMerge.DefaultTagsScenario | pkg/providers/launchtemplate/suite_test.go:296-320 | Without other tags, the launch carries the provisioner name and the default Name |
| TagMerge.SettingsTagsMergedScenario | pkg/providers/launchtemplate/suite_test.go:367-397 | Settings tags and node-class tags with distinct keys both reach the launch |
| TagMerge.NameOverrideScenario | pkg/providers/launchtemplate/suite_test.go:344-366 | A node-class Name tag overrides the default Name |
| TagMerge.NodeClassOverridesSettingsScenario | pkg/providers/launchtemplate/suite_test.go:398-430 | Node-class tags override settings tags on the same keys |
| AmiSelection.ImageRequirements | pkg/providers/launchtemplate/suite_test.go:1552-1636 | An image requires its own architecture and every well-known label it is tagged with, at the tagged value, and nothing else |
| AmiSelection.NewestCompatible | pkg/providers/launchtemplate/suite_test.go:1594-1636 | Finds a candidate among the first k exactly when the instance type boots one of them; it boots the found one, none of the others it boots is newer, and ties go to the earlier-listed one |
| AmiSelection.NewestCompatibleServes | pkg/providers/launchtemplate/suite_test.go:1594-1636 | The search returns candidate i exactly when i serves the instance type: the type boots it, it boots no newer candidate, and the ones it boots listed before i are strictly older |
| AmiSelection.ServedTypes | pkg/providers/launchtemplate/suite_test.go:1552-1636 | Exactly the offered instance types whose newest bootable candidate is i |
| AmiSelection.SelectPrefix | pkg/providers/launchtemplate/suite_test.go:1552-1636 | Over the first k candidates, the groups are exactly those of candidates that serve at least one offered instance type, each with the types it serves |
| AmiSelection.Select | pkg/providers/launchtemplate/suite_test.go:1552-1660 | The groups are exactly those of discovered candidates that serve at least one offered instance type, each with the types it serves |
| AmiSelection.SelectGroupsServe | pkg/providers/launchtemplate/suite_test.go:1552-1636 | Every group is a discovered image with a non-empty type list, and a type is in it exactly when it is offered and that image serves it |
| AmiSelection.SelectedTypeHasNoNewerImage | pkg/providers/launchtemplate/suite_test.go:1594-1636 | No instance type is launched with an image when it boots a newer discovered image |
| AmiSelection.SelectCoversBootableTypes | pkg/providers/launchtemplate/suite_test.go:1552-1636 | Every offered instance type that boots some discovered image is in some group |
| AmiSelection.SelectAssignsEachTypeOnce | pkg/providers/launchtemplate/suite_test.go:1552-1636 | An instance type is in at most one group, so it is launched with one image only |
| AmiSelection.OlderCandidateNeverSelected | pkg/providers/launchtemplate/suite_test.go:1594-1636 | A candidate is never chosen when a strictly newer one requires no more than it does, identical requirements included |
| AmiSelection.SelectEmptyIff | pkg/providers/launchtemplate/suite_test.go:1638-1660 | Selection is empty exactly when no discovered image boots any offered instance type |
| AmiSelection.ServedTypesPair | pkg/providers/launchtemplate/suite_test.go:1552-1636 | Over two instance types, the served ones, kept in order |
| AmiSelection.UntaggedRequirements | pkg/providers/launchtemplate/suite_test.go:1594-1636 | An untagged image requires only its architecture |
| AmiSelection.InstanceTypeTaggedRequirements | pkg/providers/launchtemplate/suite_test.go:1552-1593 | An image tagged with an instance type requires that type and its architecture |
| AmiSelection.NewestCompatibleScenario | pkg/providers/launchtemplate/suite_test.go:1594-1636 | The test's images (x86_64 from 2020 and 2021, arm64 from 2022) yield one group: the 2021 image with both m5 sizes |
| AmiSelection.NewestCompatibleOwners | pkg/providers/launchtemplate/suite_test.go:1594-1636 | Both m5 sizes are served by the newer of two amd64 images, not by the arm64 one |
| AmiSelection.NewestCompatibleSelect | pkg/providers/launchtemplate/suite_test.go:1594-1636 | Of two amd64 images and one arm64 image, only the newer amd64 image is used, for both m5 sizes |
| AmiSelection.DistinctRequirementsScenario | pkg/providers/launchtemplate/suite_test.go:1552-1593 | The test's two images tagged with different instance types yield two groups, one per m5 size, the older image included |
| AmiSelection.DistinctRequirementsOwners | pkg/providers/launchtemplate/suite_test.go:1552-1593 | m5.large is served by the image tagged m5.large, m5.xlarge by the one tagged m5.xlarge |
| AmiSelection.DistinctRequirementsSelect | pkg/providers/launchtemplate/suite_test.go:1552-1593 | Two images restricted to different instance types yield two groups, so two templates are created |
| AmiSelection.NewerGeneralImageWins | pkg/providers/launchtemplate/suite_test.go:1594-1636 | A newer untagged image takes m5.large from an older image tagged m5.large, which then gets no template |
| AmiSelection.UnknownArchitectureScenario | pkg/providers/launchtemplate/suite_test.go:1649-1660 | An image of unknown architecture boots nothing, so nothing is selected |
| Bootstrap.NatToStringRoundTrip | pkg/providers/launchtemplate/suite_test.go:843-868 | A printed number is a non-empty digit string that reads back as that number |
| Bootstrap.ForwardedLabels | pkg/providers/launchtemplate/suite_test.go:1132-1142 | Exactly the labels outside the node-restriction domain are forwarded, with their values |
| Bootstrap.CompactMembers | pkg/providers/launchtemplate/suite_test.go:869-1131 | A flag is written exactly when its own slot holds it |
| Bootstrap.CompactIncreasing | pkg/providers/launchtemplate/suite_test.go:869-1131 | Written flags come in strictly increasing kind order |
| Bootstrap.FlagSlot | pkg/providers/launchtemplate/suite_test.go:869-1131 | The slot for kind k holds nothing or a flag of kind k |
| Bootstrap.KubeletFlags | pkg/providers/launchtemplate/suite_test.go:843-1142 | A flag is passed to kubelet exactly when it is the flag its kind's setting calls for |
| Bootstrap.KubeletFlagsDistinct | pkg/providers/launchtemplate/suite_test.go:869-1131 | No kind of kubelet flag is passed twice |
| Bootstrap.KubeletFlagsAlways | pkg/providers/launchtemplate/suite_test.go:843-868 | The forwarded node labels and the resolved max pods are always passed: the operator's value, else the ENI limit when ENI density is on, else 110 |
| Bootstrap.KubeletFlagsOptional | pkg/providers/launchtemplate/suite_test.go:1004-1131 | Pods per core, max pod grace period, the image GC thresholds and the CFS quota are passed exactly when set, with their values |
| Bootstrap.KubeletMapFlagsPresence | pkg/providers/launchtemplate/suite_test.go:869-1003 | Reserved resources and eviction thresholds are passed as given, exactly when non-empty |
| Bootstrap.NoRestrictedLabelForwarded | pkg/providers/launchtemplate/suite_test.go:1132-1142 | The node-labels flag never contains a node-restriction label and only carries the node's own labels |
| Bootstrap.ShellArgs | pkg/providers/launchtemplate/suite_test.go:843-868 | The bootstrap script always gets `--use-max-pods false`, the resolved container runtime, the DNS address and the kubelet flags; it gets the IPv6 family exactly when that address is IPv6 |
| Bootstrap.ShellArgsDistinct | pkg/providers/launchtemplate/suite_test.go:1035-1101 | No kind of bootstrap argument is passed twice |
| Bootstrap.ShellUserData | pkg/providers/launchtemplate/suite_test.go:1401-1475 | Fails, with the archive error, exactly when the user data is an archive the reader cannot read. Otherwise the user's parts come first and the bootstrap part last; a non-MIME script becomes one shell-script part; empty user data leaves only the bootstrap |
| Bootstrap.Overlay | pkg/providers/launchtemplate/suite_test.go:1143-1399 | Every setting the synthesizer sets replaces the user's; unset ones keep the user's value; node labels are merged, with synthesized labels winning |
| Bootstrap.OverlayIdempotent | pkg/providers/launchtemplate/suite_test.go:1143-1164 | Overlaying the synthesized settings twice equals overlaying once |
| Bootstrap.OverlaySynthesizedWins | pkg/providers/launchtemplate/suite_test.go:1206-1399 | The Bottlerocket settings carry the cluster's name and endpoint, the launch's DNS address and max pods, and the CFS quota when given. System reserved, kube reserved and eviction thresholds come from the kubelet configuration when it sets any, else they keep the user's values. Each GC threshold, when given, reads back as that number, else it keeps the user's value. Every label the user set is still present in the result. The synthesizer adds no restricted label: any restricted label in the result is the user's own, with the user's value |
| Bootstrap.UserDataFor | pkg/providers/launchtemplate/suite_test.go:1143-1517 | Custom is copied verbatim. Bottlerocket fails exactly on unreadable settings and otherwise overlays the synthesized ones. AL2 and Ubuntu fail exactly on an unreadable archive and otherwise end with the bootstrap part. Windows gets the PowerShell bootstrap |
| Bootstrap.ArgTexts | pkg/providers/launchtemplate/suite_test.go:843-1101 | The bootstrap-argument texts the tests look for |
| Bootstrap.FlagTexts | pkg/providers/launchtemplate/suite_test.go:843-1131 | The kubelet-flag texts the tests look for |
| Bootstrap.MaxPodsScenarios | pkg/providers/launchtemplate/suite_test.go:843-868 | Max pods is 110 without ENI density and the operator's 10 when given; pods per core comes with it; the script's own limit is off |
| Bootstrap.ContainerRuntimeScenarios | pkg/providers/launchtemplate/suite_test.go:1035-1085 | containerd by default; dockerd when asked; containerd on accelerated nodes even when dockerd is asked |
| Bootstrap.DnsScenarios | pkg/providers/launchtemplate/suite_test.go:1086-1101 | The discovered IPv4 address without the IPv6 family; the operator's override; an IPv6 address with the IPv6 family |
| Bootstrap.BottlerocketScenarios | pkg/providers/launchtemplate/suite_test.go:1206-1399 | Reserved resources, max pods, the discovered DNS address and the CFS quota reach the Bottlerocket settings |
| Bootstrap.BottlerocketReservedScenarios | pkg/providers/launchtemplate/suite_test.go:1237-1298 | The kube-reserved cpu 2 / memory 3Gi / ephemeral-storage 10Gi and the eviction thresholds memory 10% / nodefs 15% / inodes 5% reach the Bottlerocket settings unchanged |
| Bootstrap.NumeralOf | pkg/providers/launchtemplate/suite_test.go:1323-1364 | A GC threshold the operator gives is written as a decimal numeral that reads back as the same number; an absent one stays absent |
| Bootstrap.BottlerocketGcScenarios | pkg/providers/launchtemplate/suite_test.go:1323-1364 | A high or low image-GC threshold of 50 reaches the Bottlerocket settings and reads back as 50 |
| Bootstrap.CustomScenario | pkg/providers/launchtemplate/suite_test.go:1498-1517 | Custom user data reaches the template untouched |
| LaunchTemplates.NetworkInterfaces | pkg/providers/launchtemplate/suite_test.go:1685-1703 | At most one interface. There is exactly one when no subnet assigns public IPv4, with public addressing off and the security groups attached |
| LaunchTemplates.TemplateData | pkg/providers/launchtemplate/suite_test.go:296-1804 | The template uses the group's image and the launch's security groups, interface rule, block-device plan, user data, metadata options and merged tags. Monitoring is on exactly when the node class asks for it. The instance profile is the node class's, else the default |
| LaunchTemplates.Resolve | pkg/providers/launchtemplate/suite_test.go:1143-1660 | Fails with no compatible AMI exactly when selection is empty, and with invalid user data exactly when rendering fails. Otherwise there is one template per group. Each is the template data built from that group and the rendered user data, so it has the group's image, the block-device plan, the merged tags and the rendered user data |
| LaunchTemplates.NamesOf | pkg/providers/launchtemplate/suite_test.go:142-160 | One name per template data, naming that data |
| LaunchTemplates.EnsureTemplate | pkg/providers/launchtemplate/suite_test.go:177-235 | A cached name changes nothing; an uncached one is created in the account, recorded and cached |
| LaunchTemplates.MissesExact | pkg/providers/launchtemplate/suite_test.go:177-235 | Exactly the uncached names are created, each once; a fully cached launch creates nothing |
| LaunchTemplates.EnsureAll | pkg/providers/launchtemplate/suite_test.go:177-258 | Afterwards every name is cached; only the previously uncached ones are created; the fleet log is untouched |
| LaunchTemplates.FleetRequest | pkg/providers/launchtemplate/suite_test.go:236-258 | The fleet launches exactly when no fault is pending and every named template exists; each call is logged |
| LaunchTemplates.Launch | pkg/providers/launchtemplate/suite_test.go:142-258 | No names: fails and changes nothing. A stale rejection evicts the names, re-creates them and retries once; success exactly when at most one rejection is pending; the configs are the names at version $Latest |
| LaunchTemplates.EnsureAllCreates | pkg/providers/launchtemplate/suite_test.go:141-159 | Ensuring names only appends to the log of created templates, and only names of that launch |
| LaunchTemplates.LaunchCreatesOnlyItsNames | pkg/providers/launchtemplate/suite_test.go:141-159 | A launch, retry included, only appends to the log of created templates, and only names it was asked for |
| LaunchTemplates.LaunchCreatesMisses | pkg/providers/launchtemplate/suite_test.go:141-159 | Without a stale rejection and with every cached name present in the account, a launch creates exactly its uncached names, each once, in order |
| LaunchTemplates.DeleteOutOfBand | pkg/providers/launchtemplate/suite_test.go:236-258 | The template leaves the account while the cache keeps it |
| LaunchTemplates.FleetInputOf | pkg/providers/launchtemplate/suite_test.go:296-343 | One config per group, pairing its template with the group's instance types; the tag specifications carry the given tags for the instance, its volumes and the fleet |
| LaunchTemplates.Provision | pkg/providers/launchtemplate/suite_test.go:142-430 | With no selectable AMI it fails without touching the state. Any failure other than a stale template leaves the state alone. On success the rendered user data exists and the fleet request has one config per group. Each config's template is named by the template data built from its group and that user data; it carries the group's image, block devices and tags at version $Latest, and overrides with the group's instance types. The request's tag specifications carry the merged tags |
| LaunchTemplates.ProvisionLaunchesNames | pkg/providers/launchtemplate/suite_test.go:141-159 | Provisioning launches the names of its resolved templates, and its configs name them in the same order; a resolution failure changes nothing |
| LaunchTemplates.ProvisionCreatesOnlyConfigTemplates | pkg/providers/launchtemplate/suite_test.go:148-158 | Provisioning only appends to the created log, and every template it creates is named by some config of the accepted fleet request |
| LaunchTemplates.ProvisionCreatesEveryConfigTemplate | pkg/providers/launchtemplate/suite_test.go:148-158 | From an empty cache, an accepted request's created templates are exactly the ones its configs name, without repeats |
| LaunchTemplates.ResolvedNamesDistinct | pkg/providers/launchtemplate/suite_test.go:148-149 | Templates resolved for images with distinct ids have distinct names |
| LaunchTemplates.ProvisionCreatesOnePerConfig | pkg/providers/launchtemplate/suite_test.go:148-149 | From an empty cache and with distinct image ids, an accepted request has as many configs as templates were created, and at least one |
| LaunchTemplates.ProvisionLaunchesNewestImage | pkg/providers/launchtemplate/suite_test.go:1594-1636 | Every instance type a template may launch is offered, boots the template's image, and boots no newer discovered image |
| LaunchTemplates.ProvisionTagsEveryResource | pkg/providers/launchtemplate/suite_test.go:296-343 | An accepted request tags the instance, its volumes and the fleet, each with the provisioner-name and managed-by tags |
| LaunchTemplates.CachedLaunchCreatesNothing | pkg/providers/launchtemplate/suite_test.go:177-235 | A launch whose templates are cached and present creates nothing and makes one successful fleet call |
| LaunchTemplates.EnsureAllKeepsCacheCreated | pkg/providers/launchtemplate/suite_test.go:177-258 | Ensuring templates keeps every cached name one the provider created |
| LaunchTemplates.LaunchKeepsCacheCreated | pkg/providers/launchtemplate/suite_test.go:177-258 | A whole launch, retry included, keeps every cached name one the provider created |
| LaunchTemplates.EnsureOne | pkg/providers/launchtemplate/suite_test.go:177-235 | Ensuring one name is one cache lookup |
| LaunchTemplates.SecondLaunchReuses | pkg/providers/launchtemplate/suite_test.go:177-235 | A second identical launch creates nothing more and succeeds |
| LaunchTemplates.OutOfBandDeletionRecovered | pkg/providers/launchtemplate/suite_test.go:236-258 | A cached template deleted from the account is re-created by the retry, and the launch succeeds |
| LaunchTemplates.StaleCacheRecoveryScenario | pkg/providers/launchtemplate/suite_test.go:236-258 | The recovery test: after one injected rejection, the fleet log shows one failed and two successful calls |
| LaunchTemplates.SecondRejectionSurfaces | pkg/providers/launchtemplate/suite_test.go:236-258 | Two rejections in a row surface as a failure after exactly two fleet calls |
| LaunchTemplates.RepeatedProvisionReuses | pkg/providers/launchtemplate/suite_test.go:177-235 | The first provisioning succeeds exactly when the templates resolve; repeating a successful one, as for requests differing only in toleration order, yields the same configs and creates no template |
| LaunchTemplates.NoAmiCreatesNothing | pkg/providers/launchtemplate/suite_test.go:1638-1648 | With no discovered image, nothing is created and the launch fails |
| InterruptionEvents.EventAbout | pkg/controllers/interruption/events/events.go:26-52 | An event about an object deduplicates on that object's UID and carries the given type, reason and message |
| InterruptionEvents.Emit | pkg/controllers/interruption/events/events.go:25-54 | The claim's event comes first; the node's event is second and present exactly when the node is known; all share type and reason |
| InterruptionEvents.SpotInterrupted | pkg/controllers/interruption/events/events.go:25-54 | Warning SpotInterrupted, shaped as above, with the spot-interruption message |
| InterruptionEvents.RebalanceRecommendation | pkg/controllers/interruption/events/events.go:56-85 | Normal SpotRebalanceRecommendation, shaped as above, with the rebalance message |
| InterruptionEvents.Stopping | pkg/controllers/interruption/events/events.go:87-116 | Warning InstanceStopping, shaped as above |
| InterruptionEvents.Terminating | pkg/controllers/interruption/events/events.go:118-147 | Warning InstanceTerminating, shaped as above |
| InterruptionEvents.Unhealthy | pkg/controllers/interruption/events/events.go:149-178 | Warning InstanceUnhealthy, shaped as above |
| InterruptionEvents.TerminatingOnInterruption | pkg/controllers/interruption/events/events.go:180-209 | Warning TerminatingOnInterruption; each message names the kind of object it is about |
| InterruptionEvents.TerminatingOnInterruptionMessages | pkg/controllers/interruption/events/events.go:180-209 | The claim's message names Machine or NodeClaim, depending on what the claim is; the node's message names Node |
| InterruptionEvents.ReasonsDistinct | pkg/controllers/interruption/events/events.go:25-209 | The six constructors use six distinct reasons |
| InterruptionEvents.DedupeSeparatesNodeAndClaim | pkg/controllers/interruption/events/events.go:25-54 | The claim's event and the node's event never deduplicate into one when their UIDs differ |

## Left out

- pkg/operator/operator.go: wiring of clients, caches and controllers. It has no behaviour of its own that the suites check.
- pkg/fake/cloudprovider.go: a test double. Its one relevant trait, failing a fleet call on demand, is the `pendingNotFound` counter of the provider state.
- Ephemeral-storage packing and memory-overhead arithmetic (launch-template suite 597-841): they belong to the instance-type provider, not to the templates.
- Byte-level rendering of MIME archives, TOML and PowerShell. Splitting an archive and reading a settings file are parameters; the model keeps the parts and fields.
- Bootstrap.RenderFlag: map-valued flags (reserved resources, eviction maps) have no text, because Go map iteration order fixes no entry order. Their presence and contents are stated on the flag values instead.
- The explicit launch-template name on a node template (suite 161-176): it bypasses everything modelled here.
- The SSM lookup of a default image (suite 1661-1683): it calls a parameter store outside the model.
- Windows custom user data details (suite 1738-1779): the model only states that Windows families get the PowerShell bootstrap with the kubelet flags.
- Subnet and security-group resolution from selector terms: their results are inputs.
- Splitting one AMI group further when its instance types differ in ENI-limited max pods: max pods is one value per launch here.
- Taints, startup taints and kubelet durations. The Bottlerocket tests set taints (launch-template suite 1152-1153, 1170-1171), but they check them only against golden user-data files, which are not part of this model.
- Describe-before-create on a cache miss, TTL expiry of the cache, and concurrent launches.
- BlockDevicePlanner.VolumeSizeGiB: the size conversion is exact integer ceiling division, while the system converts through 64-bit floating point. The two agree on every size the suites use.
- NodeClassHash.Hash: the hash is an injective image of the static fields, not a 64-bit digest, so collisions are not modelled.
- The difference between a nil and an empty tag map or list: both are the empty value here.
- AmiSelection.NewestCompatible: when two images an instance type boots have the same creation date, the earlier-listed one serves it. The suites fix no order for ties.
- TagMerge.StaticTags: the values of the controller's tags are `owned` for the cluster tag and the cluster name for managed-by. The launch-template suite asserts only the provisioner-name value. The admission suite (pkg/apis/v1beta1/suite_test.go 112-125) asserts only that these keys are refused.
- Bootstrap.ShellUserData: what makes an archive unreadable is the reader's concern, and the reader is a parameter. No test in these suites feeds a malformed archive.

Notes on how the sources were read:
- One could expect the network interface to turn public addressing off when a subnet *would* assign one. The launch-template suite (1685-1703) expects the opposite: the interface with public IPv4 off appears only when no subnet assigns public IPv4, and no interface is set otherwise. The model follows the suite.
- The names of the v1beta1 tests at 168 and 178 are swapped: the "empty key" test builds an empty value and vice versa. Both inputs are refused either way.
- The hash table's "Reorder" entries (v1beta1 suite 526-527) replace the whole spec with one field, so they differ from the base for reasons other than order. `NodeClassHash.HashTestEntries` states that, and `NodeClassHash.HashIgnoresMappingOrder` states the order-insensitivity the hash is meant to have.
