/**
  The launch-template provider. A launch resolves one template per selected
  AMI group (image, security groups, network interface, block devices, user
  data, instance profile, monitoring, metadata options, tags) and names each
  template after its resolved data, so equal configurations share a name.
  The provider caches the names it has created: a cached name is used without
  a create call, a missing one is created. The fleet request that follows can
  be rejected because a template is not found (deleted out of band, or the
  cloud's view is stale); the provider then evicts the launch's names,
  re-creates them and retries the fleet request exactly once.
 */
module LaunchTemplates {
  import opened Wrappers
  import opened Apis
  import BlockDevicePlanner
  import TagMerge
  import AmiSelection
  import Bootstrap

  /** A subnet as the resolver reports it. */
  datatype Subnet = Subnet(id: string, zone: string, mapPublicIpOnLaunch: bool)

  datatype NetworkInterface = NetworkInterface(deviceIndex: nat, associatePublicIpAddress: bool, groups: seq<string>)

  predicate AnyAssignsPublicIp(subnets: seq<Subnet>) {
    exists i :: 0 <= i < |subnets| && subnets[i].mapPublicIpOnLaunch
  }

  /**
    When none of the subnets assigns public IPv4 addresses by default, the
    template carries one primary interface that explicitly turns public IP
    assignment off; otherwise it carries no interface at all.
   */
  function NetworkInterfaces(subnets: seq<Subnet>, securityGroupIds: seq<string>): (nis: seq<NetworkInterface>)
    ensures |nis| <= 1
    ensures |nis| == 1 <==> forall i :: 0 <= i < |subnets| ==> !subnets[i].mapPublicIpOnLaunch
    ensures forall i :: 0 <= i < |nis| ==>
              nis[i].deviceIndex == 0 && !nis[i].associatePublicIpAddress && nis[i].groups == securityGroupIds
  {
    if AnyAssignsPublicIp(subnets) then [] else [NetworkInterface(0, false, securityGroupIds)]
  }

  /** The content of one launch template. */
  datatype LaunchTemplateData = LaunchTemplateData(
    imageId: string,
    securityGroupIds: seq<string>,
    networkInterfaces: seq<NetworkInterface>,
    blockDeviceMappings: seq<BlockDevicePlanner.BlockDeviceRequest>,
    userData: Bootstrap.UserData,
    instanceProfile: string,
    monitoring: bool,
    metadataOptions: Option<MetadataOptions>,
    tags: TagMap)

  /**
    A template's name: a fingerprint of the cluster and of the fully resolved
    data, so two launches share a template exactly when their data agree.
   */
  datatype TemplateName = TemplateName(clusterName: string, data: LaunchTemplateData)

  /** Everything a launch reads besides the AMI candidates and instance types. */
  datatype LaunchContext = LaunchContext(
    nodeClass: NodeClassSpec,
    provisionerName: string,
    settingsTags: TagMap,
    defaultInstanceProfile: string,
    subnets: seq<Subnet>,
    securityGroupIds: seq<string>,
    kubelet: Bootstrap.KubeletConfiguration,
    cluster: Bootstrap.ClusterSettings,
    shape: Bootstrap.NodeShape)

  datatype LaunchError = NoCompatibleAmi | InvalidUserData | StaleTemplate

  /** The tags of everything a launch creates, with the controller's own tags winning. */
  function LaunchTagsOf(ctx: LaunchContext): TagMap {
    TagMerge.LaunchTags(ctx.cluster.clusterName, ctx.provisionerName, ctx.settingsTags, ctx.nodeClass.tags)
  }

  /** The block devices of a launch: the node class's own, or the family's default root volume. */
  function BlockDevicesOf(ctx: LaunchContext): seq<BlockDevicePlanner.BlockDeviceRequest> {
    BlockDevicePlanner.Plan(ctx.nodeClass.blockDeviceMappings, FamilyOf(ctx.nodeClass.amiFamily))
  }

  /**
    The template data for one AMI group: the group's image with the launch's
    security groups, interfaces, block devices, user data, profile,
    monitoring, metadata options and tags.
   */
  function TemplateData(ctx: LaunchContext, group: AmiSelection.AmiGroup, userData: Bootstrap.UserData): (d: LaunchTemplateData)
    ensures d.imageId == group.candidate.id
    ensures d.securityGroupIds == ctx.securityGroupIds
    ensures d.networkInterfaces == NetworkInterfaces(ctx.subnets, ctx.securityGroupIds)
    ensures |d.networkInterfaces| == 1 <==> !AnyAssignsPublicIp(ctx.subnets)
    ensures d.blockDeviceMappings == BlockDevicesOf(ctx)
    ensures d.userData == userData
    ensures ctx.nodeClass.instanceProfile.Some? ==> d.instanceProfile == ctx.nodeClass.instanceProfile.value
    ensures ctx.nodeClass.instanceProfile.None? ==> d.instanceProfile == ctx.defaultInstanceProfile
    ensures d.monitoring <==> ctx.nodeClass.detailedMonitoring == Some(true)
    ensures d.metadataOptions == ctx.nodeClass.metadataOptions
    ensures d.tags == LaunchTagsOf(ctx)
  {
    LaunchTemplateData(
      group.candidate.id,
      ctx.securityGroupIds,
      NetworkInterfaces(ctx.subnets, ctx.securityGroupIds),
      BlockDevicesOf(ctx),
      userData,
      ctx.nodeClass.instanceProfile.GetOr(ctx.defaultInstanceProfile),
      ctx.nodeClass.detailedMonitoring.GetOr(false),
      ctx.nodeClass.metadataOptions,
      LaunchTagsOf(ctx))
  }

  /** The rendered user data of a launch. */
  function UserDataOf(ctx: LaunchContext, splitArchive: string -> Bootstrap.ArchiveReading,
                      readToml: string -> Option<Bootstrap.BottlerocketConfig>): Result<Bootstrap.UserData, Bootstrap.BootstrapError> {
    Bootstrap.UserDataFor(FamilyOf(ctx.nodeClass.amiFamily), ctx.nodeClass.userData, ctx.kubelet, ctx.cluster,
                          ctx.shape, splitArchive, readToml)
  }

  /**
    The templates of a launch, one per selected AMI group in selection order.
    No selected group is a hard failure, and so is user data the family
    cannot read.
   */
  function Resolve(ctx: LaunchContext, candidates: seq<AmiSelection.Candidate>, instanceTypes: seq<AmiSelection.InstanceType>,
                   splitArchive: string -> Bootstrap.ArchiveReading,
                   readToml: string -> Option<Bootstrap.BottlerocketConfig>): (r: Result<seq<LaunchTemplateData>, LaunchError>)
    ensures r == Err(NoCompatibleAmi) <==> |AmiSelection.Select(candidates, instanceTypes)| == 0
    ensures r == Err(InvalidUserData) <==>
              |AmiSelection.Select(candidates, instanceTypes)| > 0 && UserDataOf(ctx, splitArchive, readToml).Err?
    ensures r.Ok? ==>
              var groups := AmiSelection.Select(candidates, instanceTypes);
              && |r.value| == |groups| > 0
              && UserDataOf(ctx, splitArchive, readToml).Ok?
              && forall i :: 0 <= i < |groups| ==>
                   && r.value[i] == TemplateData(ctx, groups[i], UserDataOf(ctx, splitArchive, readToml).value)
                   && r.value[i].imageId == groups[i].candidate.id
                   && r.value[i].blockDeviceMappings == BlockDevicesOf(ctx)
                   && r.value[i].tags == LaunchTagsOf(ctx)
                   && r.value[i].userData == UserDataOf(ctx, splitArchive, readToml).value
  {
    var groups := AmiSelection.Select(candidates, instanceTypes);
    if |groups| == 0 then Err(NoCompatibleAmi)
    else
      match UserDataOf(ctx, splitArchive, readToml)
      case Err(_) => Err(InvalidUserData)
      case Ok(userData) => Ok(seq(|groups|, i requires 0 <= i < |groups| => TemplateData(ctx, groups[i], userData)))
  }

  /** The names of a launch's templates. */
  function NamesOf(clusterName: string, datas: seq<LaunchTemplateData>): (names: seq<TemplateName>)
    ensures |names| == |datas|
    ensures forall i :: 0 <= i < |datas| ==> names[i].data == datas[i]
  {
    seq(|datas|, i requires 0 <= i < |datas| => TemplateName(clusterName, datas[i]))
  }

  function NameSet(names: seq<TemplateName>): set<TemplateName> {
    set n | n in names
  }

  predicate NoDuplicates<T(==)>(s: seq<T>) {
    forall i, j :: 0 <= i < j < |s| ==> s[i] != s[j]
  }

  datatype FleetOutcome = Launched | TemplateNotFound

  /**
    The provider's cache and the cloud it talks to. `cloud` holds the
    templates that really exist; `created` and `fleetCalls` record every
    create and fleet call, in order; `pendingNotFound` is the number of
    upcoming fleet requests the cloud will reject as template-not-found
    whatever the provider does (a stale cloud view).
   */
  datatype ProviderState = ProviderState(
    cache: set<TemplateName>,
    cloud: set<TemplateName>,
    created: seq<TemplateName>,
    fleetCalls: seq<FleetOutcome>,
    pendingNotFound: nat)

  /** Every cached name was created by this provider. */
  ghost predicate CacheCreated(st: ProviderState) {
    forall n :: n in st.cache ==> n in st.created
  }

  /**
    A cache hit returns the name with no cloud call at all; a miss creates the
    template and caches its name. A hit does not check the cloud, so a
    template deleted out of band stays cached.
   */
  function EnsureTemplate(st: ProviderState, name: TemplateName): (r: ProviderState)
    ensures name in r.cache
    ensures name in st.cache ==> r == st
    ensures name !in st.cache ==>
              && r.created == st.created + [name]
              && r.cache == st.cache + {name}
              && r.cloud == st.cloud + {name}
    ensures r.fleetCalls == st.fleetCalls && r.pendingNotFound == st.pendingNotFound
  {
    if name in st.cache then st
    else st.(cache := st.cache + {name}, cloud := st.cloud + {name}, created := st.created + [name])
  }

  /** The names a launch must create: the uncached ones, each at its first occurrence. */
  function Misses(cache: set<TemplateName>, names: seq<TemplateName>): seq<TemplateName>
    decreases |names|
  {
    if |names| == 0 then []
    else
      var init := names[..|names| - 1];
      var last := names[|names| - 1];
      Misses(cache, init) + (if last in cache || last in init then [] else [last])
  }

  /** Exactly the uncached names are missed, each once; a fully cached launch misses nothing. */
  lemma {:induction false} MissesExact(cache: set<TemplateName>, names: seq<TemplateName>)
    ensures forall n :: n in Misses(cache, names) <==> n in names && n !in cache
    ensures NoDuplicates(Misses(cache, names))
    ensures NameSet(names) <= cache ==> Misses(cache, names) == []
    decreases |names|
  {
    if |names| > 0 {
      var init := names[..|names| - 1];
      var last := names[|names| - 1];
      MissesExact(cache, init);
      assert forall n :: n in names <==> n in init || n == last;
      if NameSet(names) <= cache {
        assert NameSet(init) <= cache;
        assert last in NameSet(names);
      }
    }
  }

  /**
    Ensuring a launch's names: all of them end up cached, and the templates
    created are the launch's misses, in order.
   */
  function EnsureAll(st: ProviderState, names: seq<TemplateName>): (r: ProviderState)
    decreases |names|
    ensures r.cache == st.cache + NameSet(names)
    ensures r.cloud == st.cloud + (NameSet(names) - st.cache)
    ensures r.created == st.created + Misses(st.cache, names)
    ensures r.fleetCalls == st.fleetCalls && r.pendingNotFound == st.pendingNotFound
  {
    if |names| == 0 then st
    else
      var init := names[..|names| - 1];
      var last := names[|names| - 1];
      assert NameSet(names) == NameSet(init) + {last} by {
        assert forall n :: n in names <==> n in init || n == last;
      }
      EnsureTemplate(EnsureAll(st, init), last)
  }

  /**
    One fleet request over the launch's names. It succeeds exactly when the
    cloud has no stale rejection pending and every named template exists.
   */
  function FleetRequest(st: ProviderState, names: seq<TemplateName>): (r: (ProviderState, FleetOutcome))
    ensures r.1 == Launched <==> st.pendingNotFound == 0 && NameSet(names) <= st.cloud
    ensures r.0.fleetCalls == st.fleetCalls + [r.1]
    ensures r.0.pendingNotFound == if st.pendingNotFound > 0 then st.pendingNotFound - 1 else 0
    ensures r.0.cache == st.cache && r.0.cloud == st.cloud && r.0.created == st.created
  {
    var outcome := if st.pendingNotFound == 0 && forall n :: n in names ==> n in st.cloud then Launched else TemplateNotFound;
    (st.(fleetCalls := st.fleetCalls + [outcome], pendingNotFound := if st.pendingNotFound > 0 then st.pendingNotFound - 1 else 0),
     outcome)
  }

  /** The fleet's view of a template: its name at the latest version. */
  datatype FleetConfig = FleetConfig(name: TemplateName, version: string)

  const LatestVersion: string := "$Latest"

  /** The fleet's successful calls and failed calls in a log. */
  function Count(log: seq<FleetOutcome>, o: FleetOutcome): nat {
    if |log| == 0 then 0 else Count(log[..|log| - 1], o) + (if log[|log| - 1] == o then 1 else 0)
  }

  /**
    A launch: ensure every template, send the fleet request, and on a
    not-found rejection evict the launch's names, re-create them and retry
    exactly once. The launch succeeds exactly when at most one stale
    rejection is pending; it never makes more than two fleet calls.
   */
  function Launch(st: ProviderState, names: seq<TemplateName>): (r: (ProviderState, Result<seq<FleetConfig>, LaunchError>))
    ensures |names| == 0 ==> r.0 == st && r.1.Err?
    ensures |names| > 0 ==> (r.1.Ok? <==> st.pendingNotFound <= 1)
    ensures |names| > 0 ==>
              && |st.fleetCalls| < |r.0.fleetCalls| <= |st.fleetCalls| + 2
              && r.0.fleetCalls[..|st.fleetCalls|] == st.fleetCalls
              && (r.1.Ok? <==> r.0.fleetCalls[|r.0.fleetCalls| - 1] == Launched)
              && (|r.0.fleetCalls| == |st.fleetCalls| + 2 ==> r.0.fleetCalls[|st.fleetCalls|] == TemplateNotFound)
    ensures r.1.Ok? ==>
              && NameSet(names) <= r.0.cache && NameSet(names) <= r.0.cloud
              && |r.1.value| == |names|
              && forall i :: 0 <= i < |names| ==> r.1.value[i] == FleetConfig(names[i], LatestVersion)
    ensures r.1.Err? ==> r.1.error == (if |names| == 0 then NoCompatibleAmi else StaleTemplate)
  {
    if |names| == 0 then (st, Err(NoCompatibleAmi))
    else
      var configs := seq(|names|, i requires 0 <= i < |names| => FleetConfig(names[i], LatestVersion));
      var ensured := EnsureAll(st, names);
      var (first, outcome) := FleetRequest(ensured, names);
      if outcome == Launched then (first, Ok(configs))
      else
        var evicted := first.(cache := first.cache - NameSet(names));
        var recreated := EnsureAll(evicted, names);
        assert NameSet(names) <= recreated.cloud;
        var (second, retried) := FleetRequest(recreated, names);
        if retried == Launched then (second, Ok(configs)) else (second, Err(StaleTemplate))
  }

  /** `after` is `before` followed only by names from `names`. */
  ghost predicate ExtendsWith(before: seq<TemplateName>, after: seq<TemplateName>, names: seq<TemplateName>) {
    && |before| <= |after| && after[..|before|] == before
    && forall n :: n in after[|before|..] ==> n in names
  }

  lemma ExtendsWithTrans(a: seq<TemplateName>, b: seq<TemplateName>, c: seq<TemplateName>, names: seq<TemplateName>)
    requires ExtendsWith(a, b, names) && ExtendsWith(b, c, names)
    ensures ExtendsWith(a, c, names)
  {
    assert c[..|a|] == b[..|a|];
    forall n | n in c[|a|..] ensures n in names {
      var k :| 0 <= k < |c[|a|..]| && c[|a|..][k] == n;
      if |a| + k < |b| {
        assert n == b[|a|..][k];
      } else {
        assert n == c[|b|..][|a| + k - |b|];
      }
    }
  }

  /** Ensuring a launch's names creates only those names, appended to the log. */
  lemma EnsureAllCreates(st: ProviderState, names: seq<TemplateName>)
    ensures ExtendsWith(st.created, EnsureAll(st, names).created, names)
  {
    MissesExact(st.cache, names);
    assert EnsureAll(st, names).created[|st.created|..] == Misses(st.cache, names);
  }

  /**
    A launch only appends to the log of created templates, and everything it
    appends is one of the launch's names.
   */
  lemma LaunchCreatesOnlyItsNames(st: ProviderState, names: seq<TemplateName>)
    ensures var after := Launch(st, names).0;
            && |st.created| <= |after.created| && after.created[..|st.created|] == st.created
            && (forall n :: n in after.created[|st.created|..] ==> n in names)
  {
    if |names| > 0 {
      var ensured := EnsureAll(st, names);
      EnsureAllCreates(st, names);
      var first := FleetRequest(ensured, names).0;
      var evicted := first.(cache := first.cache - NameSet(names));
      EnsureAllCreates(evicted, names);
      ExtendsWithTrans(st.created, evicted.created, EnsureAll(evicted, names).created, names);
    }
  }

  /**
    With no stale rejection pending and every cached name of the launch still
    in the account, a launch creates exactly its misses: each uncached name
    once, in order, and nothing else.
   */
  lemma LaunchCreatesMisses(st: ProviderState, names: seq<TemplateName>)
    requires st.pendingNotFound == 0 && NameSet(names) * st.cache <= st.cloud
    ensures Launch(st, names).0.created == st.created + Misses(st.cache, names)
    ensures forall n :: n in Launch(st, names).0.created[|st.created|..] <==> n in names && n !in st.cache
  {
    MissesExact(st.cache, names);
    if |names| > 0 {
      assert NameSet(names) <= EnsureAll(st, names).cloud;
    }
    assert (st.created + Misses(st.cache, names))[|st.created|..] == Misses(st.cache, names);
  }

  /** A template removed from the account by someone else; the provider's cache does not notice. */
  function DeleteOutOfBand(st: ProviderState, name: TemplateName): (r: ProviderState)
    ensures name !in r.cloud && r.cache == st.cache
  {
    st.(cloud := st.cloud - {name})
  }

  /** One entry of the fleet request: a template and the instance types it may launch. */
  datatype LaunchTemplateConfig = LaunchTemplateConfig(template: FleetConfig, overrides: seq<AmiSelection.InstanceType>)

  /** The fleet request: a config per template, and the tags for the instance, its volumes and the fleet. */
  datatype FleetInput = FleetInput(configs: seq<LaunchTemplateConfig>, tagSpecifications: seq<TagMerge.TagSpecification>)

  /** Pairs each launched template with the instance types of its AMI group. */
  function FleetInputOf(templates: seq<FleetConfig>, groups: seq<AmiSelection.AmiGroup>, tags: TagMap): (input: FleetInput)
    requires |templates| == |groups|
    ensures |input.configs| == |groups|
    ensures forall i :: 0 <= i < |groups| ==>
              input.configs[i].template == templates[i] && input.configs[i].overrides == groups[i].instanceTypes
    ensures input.tagSpecifications == TagMerge.TagSpecifications(tags)
  {
    FleetInput(seq(|templates|, i requires 0 <= i < |templates| => LaunchTemplateConfig(templates[i], groups[i].instanceTypes)),
               TagMerge.TagSpecifications(tags))
  }

  /**
    Provisioning: resolve the templates, launch them, and return the fleet
    request that was accepted. A launch that cannot resolve any template, or
    whose user data is unreadable, fails before touching the cache or the
    cloud.
   */
  function Provision(st: ProviderState, ctx: LaunchContext, candidates: seq<AmiSelection.Candidate>,
                     instanceTypes: seq<AmiSelection.InstanceType>,
                     splitArchive: string -> Bootstrap.ArchiveReading,
                     readToml: string -> Option<Bootstrap.BottlerocketConfig>): (r: (ProviderState, Result<FleetInput, LaunchError>))
    ensures |AmiSelection.Select(candidates, instanceTypes)| == 0 ==> r == (st, Err(NoCompatibleAmi))
    ensures r.1.Err? && r.1.error != StaleTemplate ==> r.0 == st
    ensures r.1.Ok? ==>
              var groups := AmiSelection.Select(candidates, instanceTypes);
              && |r.1.value.configs| == |groups|
              && UserDataOf(ctx, splitArchive, readToml).Ok?
              && (forall i :: 0 <= i < |groups| ==>
                    && r.1.value.configs[i].template.name.data
                       == TemplateData(ctx, groups[i], UserDataOf(ctx, splitArchive, readToml).value)
                    && r.1.value.configs[i].template.name.data.imageId == groups[i].candidate.id
                    && r.1.value.configs[i].template.name.data.blockDeviceMappings == BlockDevicesOf(ctx)
                    && r.1.value.configs[i].template.name.data.tags == LaunchTagsOf(ctx)
                    && r.1.value.configs[i].template.version == LatestVersion
                    && r.1.value.configs[i].overrides == groups[i].instanceTypes)
              && r.1.value.tagSpecifications == TagMerge.TagSpecifications(LaunchTagsOf(ctx))
  {
    var groups := AmiSelection.Select(candidates, instanceTypes);
    match Resolve(ctx, candidates, instanceTypes, splitArchive, readToml)
    case Err(e) => (st, Err(e))
    case Ok(datas) =>
      var (after, launched) := Launch(st, NamesOf(ctx.cluster.clusterName, datas));
      match launched
      case Err(e) => (after, Err(e))
      case Ok(templates) => (after, Ok(FleetInputOf(templates, groups, LaunchTagsOf(ctx))))
  }

  /** A sequence without repeats has as many distinct elements as entries. */
  lemma {:induction false} NoDuplicatesCard<T>(s: seq<T>)
    requires NoDuplicates(s)
    ensures |set x | x in s| == |s|
    decreases |s|
  {
    if |s| > 0 {
      var init := s[..|s| - 1];
      NoDuplicatesCard(init);
      assert (set x | x in s) == (set x | x in init) + {s[|s| - 1]};
    }
  }

  /** Two repeat-free sequences with the same elements have the same length. */
  lemma SameElementsSameLength<T>(a: seq<T>, b: seq<T>)
    requires NoDuplicates(a) && NoDuplicates(b)
    requires forall x :: x in a <==> x in b
    ensures |a| == |b|
  {
    NoDuplicatesCard(a);
    NoDuplicatesCard(b);
    assert (set x | x in a) == (set x | x in b);
  }

  /** Provisioning launches the names of the resolved templates, and its configs name them in order. */
  lemma ProvisionLaunchesNames(st: ProviderState, ctx: LaunchContext, candidates: seq<AmiSelection.Candidate>,
                               instanceTypes: seq<AmiSelection.InstanceType>,
                               splitArchive: string -> Bootstrap.ArchiveReading,
                               readToml: string -> Option<Bootstrap.BottlerocketConfig>)
    ensures var (after, r) := Provision(st, ctx, candidates, instanceTypes, splitArchive, readToml);
            var resolved := Resolve(ctx, candidates, instanceTypes, splitArchive, readToml);
            && (resolved.Err? ==> after == st && r.Err?)
            && (resolved.Ok? ==>
                  var names := NamesOf(ctx.cluster.clusterName, resolved.value);
                  && after == Launch(st, names).0
                  && (r.Ok? ==> && |r.value.configs| == |names|
                                && forall i :: 0 <= i < |names| ==> r.value.configs[i].template.name == names[i]))
  {
  }

  /**
    Provisioning only appends to the log of created templates, and each
    template it adds is named by a config of the accepted fleet request.
   */
  lemma ProvisionCreatesOnlyConfigTemplates(st: ProviderState, ctx: LaunchContext, candidates: seq<AmiSelection.Candidate>,
                                            instanceTypes: seq<AmiSelection.InstanceType>,
                                            splitArchive: string -> Bootstrap.ArchiveReading,
                                            readToml: string -> Option<Bootstrap.BottlerocketConfig>)
    ensures var (after, r) := Provision(st, ctx, candidates, instanceTypes, splitArchive, readToml);
            && |st.created| <= |after.created| && after.created[..|st.created|] == st.created
            && (r.Ok? ==> forall n :: n in after.created[|st.created|..] ==>
                            exists i :: 0 <= i < |r.value.configs| && r.value.configs[i].template.name == n)
  {
    ProvisionLaunchesNames(st, ctx, candidates, instanceTypes, splitArchive, readToml);
    var resolved := Resolve(ctx, candidates, instanceTypes, splitArchive, readToml);
    if resolved.Ok? {
      var names := NamesOf(ctx.cluster.clusterName, resolved.value);
      LaunchCreatesOnlyItsNames(st, names);
      var (after, r) := Provision(st, ctx, candidates, instanceTypes, splitArchive, readToml);
      if r.Ok? {
        forall n | n in after.created[|st.created|..]
          ensures exists i :: 0 <= i < |r.value.configs| && r.value.configs[i].template.name == n
        {
          var i :| 0 <= i < |names| && names[i] == n;
          assert r.value.configs[i].template.name == n;
        }
      }
    }
  }

  /** Configs naming a launch's names in order name exactly what was created when that is exactly those names. */
  lemma ConfigsNameTheirTemplates(created: seq<TemplateName>, names: seq<TemplateName>, configs: seq<LaunchTemplateConfig>)
    requires |configs| == |names|
    requires forall i :: 0 <= i < |names| ==> configs[i].template.name == names[i]
    requires forall n :: n in created <==> n in names
    ensures forall n :: n in created <==> exists i :: 0 <= i < |configs| && configs[i].template.name == n
  {
    forall n | n in created
      ensures exists i :: 0 <= i < |configs| && configs[i].template.name == n
    {
      var i :| 0 <= i < |names| && names[i] == n;
      assert configs[i].template.name == n;
    }
  }

  /**
    From an empty cache with no stale rejection pending, provisioning creates
    exactly the templates its configs name, each once.
   */
  lemma ProvisionCreatesEveryConfigTemplate(st: ProviderState, ctx: LaunchContext, candidates: seq<AmiSelection.Candidate>,
                                            instanceTypes: seq<AmiSelection.InstanceType>,
                                            splitArchive: string -> Bootstrap.ArchiveReading,
                                            readToml: string -> Option<Bootstrap.BottlerocketConfig>)
    ensures var (after, r) := Provision(st, ctx, candidates, instanceTypes, splitArchive, readToml);
            st.cache == {} && st.pendingNotFound == 0 && r.Ok? ==>
              && (forall n :: n in after.created[|st.created|..] <==>
                    exists i :: 0 <= i < |r.value.configs| && r.value.configs[i].template.name == n)
              && NoDuplicates(after.created[|st.created|..])
  {
    ProvisionLaunchesNames(st, ctx, candidates, instanceTypes, splitArchive, readToml);
    var resolved := Resolve(ctx, candidates, instanceTypes, splitArchive, readToml);
    var (after, r) := Provision(st, ctx, candidates, instanceTypes, splitArchive, readToml);
    if st.cache == {} && st.pendingNotFound == 0 && r.Ok? {
      var names := NamesOf(ctx.cluster.clusterName, resolved.value);
      LaunchCreatesMisses(st, names);
      MissesExact(st.cache, names);
      ConfigsNameTheirTemplates(after.created[|st.created|..], names, r.value.configs);
    }
  }

  /** Templates resolved for images with distinct ids have distinct names. */
  lemma ResolvedNamesDistinct(ctx: LaunchContext, candidates: seq<AmiSelection.Candidate>,
                              instanceTypes: seq<AmiSelection.InstanceType>,
                              splitArchive: string -> Bootstrap.ArchiveReading,
                              readToml: string -> Option<Bootstrap.BottlerocketConfig>)
    ensures var resolved := Resolve(ctx, candidates, instanceTypes, splitArchive, readToml);
            var groups := AmiSelection.Select(candidates, instanceTypes);
            && resolved.Ok?
            && (forall i, j :: 0 <= i < j < |groups| ==> groups[i].candidate.id != groups[j].candidate.id) ==>
              NoDuplicates(NamesOf(ctx.cluster.clusterName, resolved.value))
  {
  }

  /**
    From an empty cache with no stale rejection pending, when the selected
    images have distinct ids, provisioning creates as many templates as the
    fleet request has configs, and at least one.
   */
  lemma ProvisionCreatesOnePerConfig(st: ProviderState, ctx: LaunchContext, candidates: seq<AmiSelection.Candidate>,
                                     instanceTypes: seq<AmiSelection.InstanceType>,
                                     splitArchive: string -> Bootstrap.ArchiveReading,
                                     readToml: string -> Option<Bootstrap.BottlerocketConfig>)
    ensures var (after, r) := Provision(st, ctx, candidates, instanceTypes, splitArchive, readToml);
            var groups := AmiSelection.Select(candidates, instanceTypes);
            && st.cache == {} && st.pendingNotFound == 0 && r.Ok?
            && (forall i, j :: 0 <= i < j < |groups| ==> groups[i].candidate.id != groups[j].candidate.id) ==>
              |after.created| - |st.created| == |r.value.configs| >= 1
  {
    ProvisionLaunchesNames(st, ctx, candidates, instanceTypes, splitArchive, readToml);
    var resolved := Resolve(ctx, candidates, instanceTypes, splitArchive, readToml);
    var (after, r) := Provision(st, ctx, candidates, instanceTypes, splitArchive, readToml);
    var groups := AmiSelection.Select(candidates, instanceTypes);
    if && st.cache == {} && st.pendingNotFound == 0 && r.Ok?
       && (forall i, j :: 0 <= i < j < |groups| ==> groups[i].candidate.id != groups[j].candidate.id)
    {
      var names := NamesOf(ctx.cluster.clusterName, resolved.value);
      LaunchCreatesMisses(st, names);
      MissesExact(st.cache, names);
      ResolvedNamesDistinct(ctx, candidates, instanceTypes, splitArchive, readToml);
      SameElementsSameLength(after.created[|st.created|..], names);
    }
  }

  /**
    Every instance type the fleet may launch with a template is one the
    template's image boots, and no discovered image it boots is newer.
   */
  lemma ProvisionLaunchesNewestImage(st: ProviderState, ctx: LaunchContext, candidates: seq<AmiSelection.Candidate>,
                                     instanceTypes: seq<AmiSelection.InstanceType>,
                                     splitArchive: string -> Bootstrap.ArchiveReading,
                                     readToml: string -> Option<Bootstrap.BottlerocketConfig>,
                                     i: nat, it: AmiSelection.InstanceType, j: nat)
    requires j < |candidates| && AmiSelection.Compatible(it, candidates[j].requirements)
    ensures var r := Provision(st, ctx, candidates, instanceTypes, splitArchive, readToml).1;
            var groups := AmiSelection.Select(candidates, instanceTypes);
            r.Ok? && i < |r.value.configs| && it in r.value.configs[i].overrides ==>
              && i < |groups|
              && it in instanceTypes
              && AmiSelection.Compatible(it, groups[i].candidate.requirements)
              && candidates[j].creationDate <= groups[i].candidate.creationDate
  {
    var r := Provision(st, ctx, candidates, instanceTypes, splitArchive, readToml).1;
    var groups := AmiSelection.Select(candidates, instanceTypes);
    if r.Ok? && i < |r.value.configs| && it in r.value.configs[i].overrides {
      assert groups[i] in groups;
      AmiSelection.SelectGroupsServe(candidates, instanceTypes, groups[i]);
      AmiSelection.SelectedTypeHasNoNewerImage(candidates, instanceTypes, groups[i], it, j);
    }
  }

  /**
    An accepted fleet request tags the instance, its volumes and the fleet,
    each with the provisioner and managing-cluster tags the controller owns
    (a rejected one would have carried the same specifications).
   */
  lemma ProvisionTagsEveryResource(st: ProviderState, ctx: LaunchContext, candidates: seq<AmiSelection.Candidate>,
                                   instanceTypes: seq<AmiSelection.InstanceType>,
                                   splitArchive: string -> Bootstrap.ArchiveReading,
                                   readToml: string -> Option<Bootstrap.BottlerocketConfig>)
    ensures var r := Provision(st, ctx, candidates, instanceTypes, splitArchive, readToml).1;
            var specs := if r.Ok? then r.value.tagSpecifications else TagMerge.TagSpecifications(LaunchTagsOf(ctx));
            && |specs| == 3
            && specs[0].resourceType == TagMerge.Instance
            && specs[1].resourceType == TagMerge.Volume
            && specs[2].resourceType == TagMerge.Fleet
            && forall i :: 0 <= i < 3 ==>
                 && specs[i].tags[ProvisionerNameTagKey] == ctx.provisionerName
                 && specs[i].tags[ManagedByTagKey] == ctx.cluster.clusterName
  {
    TagMerge.ControllerTagsKept(ctx.cluster.clusterName, ctx.provisionerName, ctx.settingsTags, ctx.nodeClass.tags);
  }

  function EmptyProvider(): ProviderState {
    ProviderState({}, {}, [], [], 0)
  }

  /**
    Launching names that are all cached and present, with no stale rejection
    pending, creates nothing and takes one successful fleet call.
   */
  lemma CachedLaunchCreatesNothing(st: ProviderState, names: seq<TemplateName>)
    requires |names| > 0 && st.pendingNotFound == 0
    requires NameSet(names) <= st.cache && NameSet(names) <= st.cloud
    ensures Launch(st, names).0.created == st.created
    ensures Launch(st, names).0.fleetCalls == st.fleetCalls + [Launched]
  {
    MissesExact(st.cache, names);
  }

  /** Ensuring keeps every cached name a created one. */
  lemma EnsureAllKeepsCacheCreated(st: ProviderState, names: seq<TemplateName>)
    requires CacheCreated(st)
    ensures CacheCreated(EnsureAll(st, names))
  {
    MissesExact(st.cache, names);
  }

  /** The provider never caches a name it did not create, across a whole launch with its retry. */
  lemma LaunchKeepsCacheCreated(st: ProviderState, names: seq<TemplateName>)
    requires CacheCreated(st)
    ensures CacheCreated(Launch(st, names).0)
  {
    if |names| > 0 {
      EnsureAllKeepsCacheCreated(st, names);
      var first := FleetRequest(EnsureAll(st, names), names).0;
      EnsureAllKeepsCacheCreated(first.(cache := first.cache - NameSet(names)), names);
    }
  }

  /** Ensuring a single name is one cache lookup. */
  lemma EnsureOne(st: ProviderState, name: TemplateName)
    ensures EnsureAll(st, [name]) == EnsureTemplate(st, name)
  {
    assert [name][..0] == [];
  }

  /**
    Equivalent requests reuse templates: a second launch of the same names
    after a successful one yields the same fleet configurations, creates no
    template and takes a single fleet call.
   */
  lemma SecondLaunchReuses(st: ProviderState, names: seq<TemplateName>)
    requires |names| > 0 && st.pendingNotFound == 0
    ensures var (once, r1) := Launch(st, names);
            var (twice, r2) := Launch(once, names);
            && r1.Ok? && r2 == r1
            && twice.created == once.created
            && twice.fleetCalls == once.fleetCalls + [Launched]
  {
    var (once, r1) := Launch(st, names);
    CachedLaunchCreatesNothing(once, names);
  }

  /**
    A template deleted out of band while still cached is recovered: the first
    fleet call fails, the template is re-created, and the retry succeeds.
   */
  lemma OutOfBandDeletionRecovered(st: ProviderState, name: TemplateName)
    requires name in st.cache && st.pendingNotFound == 0
    ensures var (after, r) := Launch(DeleteOutOfBand(st, name), [name]);
            && r.Ok?
            && after.fleetCalls == st.fleetCalls + [TemplateNotFound, Launched]
            && after.created == st.created + [name]
  {
    var deleted := DeleteOutOfBand(st, name);
    assert NameSet([name]) == {name};
    EnsureOne(deleted, name);
    var first := FleetRequest(deleted, [name]).0;
    var evicted := first.(cache := first.cache - {name});
    EnsureOne(evicted, name);
  }

  /**
    The stale-cache recovery test: a first launch takes one successful fleet
    call; with one not-found rejection injected, the second launch fails once
    and succeeds on the retry, for one failed and two successful calls in all.
   */
  lemma StaleCacheRecoveryScenario(name: TemplateName)
    ensures var (once, r1) := Launch(EmptyProvider(), [name]);
            var (twice, r2) := Launch(once.(pendingNotFound := 1), [name]);
            && r1.Ok? && r2.Ok?
            && twice.fleetCalls == [Launched, TemplateNotFound, Launched]
            && Count(twice.fleetCalls, TemplateNotFound) == 1
            && Count(twice.fleetCalls, Launched) == 2
  {
    var st := EmptyProvider();
    assert NameSet([name]) == {name};
    EnsureOne(st, name);
    var once := Launch(st, [name]).0;
    assert once.fleetCalls == [Launched];
    var injected := once.(pendingNotFound := 1);
    EnsureOne(injected, name);
    var first := FleetRequest(injected, [name]).0;
    EnsureOne(first.(cache := first.cache - {name}), name);
    var twice := Launch(injected, [name]).0;
    assert twice.fleetCalls == [Launched, TemplateNotFound, Launched];
    assert twice.fleetCalls[..2] == [Launched, TemplateNotFound];
    assert twice.fleetCalls[..2][..1] == [Launched];
    assert twice.fleetCalls[..2][..1][..0] == [];
    assert Count([Launched], TemplateNotFound) == 0 && Count([Launched], Launched) == 1;
    assert Count([Launched, TemplateNotFound], TemplateNotFound) == 1;
    assert Count([Launched, TemplateNotFound], Launched) == 1;
  }

  /** Two stale rejections in a row surface as a failure after exactly two fleet calls. */
  lemma SecondRejectionSurfaces(st: ProviderState, names: seq<TemplateName>)
    requires |names| > 0 && st.pendingNotFound >= 2
    ensures var (after, r) := Launch(st, names);
            r == Err(StaleTemplate) && after.fleetCalls == st.fleetCalls + [TemplateNotFound, TemplateNotFound]
  {
  }

  /**
    Provisioning the same request again, as happens for pods whose scheduling
    constraints differ only in toleration order (tolerations enter no
    template), reuses the templates of the first launch: it succeeds with the
    same configs and creates nothing more. The first launch succeeds exactly
    when the templates resolve.
   */
  lemma RepeatedProvisionReuses(st: ProviderState, ctx: LaunchContext, candidates: seq<AmiSelection.Candidate>,
                                instanceTypes: seq<AmiSelection.InstanceType>,
                                splitArchive: string -> Bootstrap.ArchiveReading,
                                readToml: string -> Option<Bootstrap.BottlerocketConfig>)
    requires st.pendingNotFound == 0
    ensures var (once, r1) := Provision(st, ctx, candidates, instanceTypes, splitArchive, readToml);
            var (twice, r2) := Provision(once, ctx, candidates, instanceTypes, splitArchive, readToml);
            && (r1.Ok? <==> Resolve(ctx, candidates, instanceTypes, splitArchive, readToml).Ok?)
            && (r1.Ok? ==> r2 == r1 && twice.created == once.created)
  {
    var resolved := Resolve(ctx, candidates, instanceTypes, splitArchive, readToml);
    if resolved.Ok? {
      var names := NamesOf(ctx.cluster.clusterName, resolved.value);
      SecondLaunchReuses(st, names);
      var once := Launch(st, names).0;
      assert Provision(st, ctx, candidates, instanceTypes, splitArchive, readToml).0 == once;
    }
  }

  /** Without any selectable AMI nothing is created and the launch fails. */
  lemma NoAmiCreatesNothing(st: ProviderState, ctx: LaunchContext, instanceTypes: seq<AmiSelection.InstanceType>,
                            splitArchive: string -> Bootstrap.ArchiveReading,
                            readToml: string -> Option<Bootstrap.BottlerocketConfig>)
    ensures var (after, r) := Provision(st, ctx, [], instanceTypes, splitArchive, readToml);
            r == Err(NoCompatibleAmi) && after.created == st.created && after.fleetCalls == st.fleetCalls
  {
  }
}
