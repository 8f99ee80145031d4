/**
  Boot-script synthesis. The kubelet settings of a launch are resolved once
  (cluster DNS address, max pods, container runtime, reserved resources,
  eviction thresholds, image garbage collection, CFS quota, node labels) and
  then rendered in the family's dialect: bootstrap-script arguments for AL2
  and Ubuntu, appended as the last part of a multi-part user-data archive; a
  settings overlay on the operator's own configuration for Bottlerocket; a
  PowerShell bootstrap for Windows; and, for a Custom family, the operator's
  user data copied untouched.
 */
module Bootstrap {
  import opened Wrappers
  import opened Apis

  /** Decimal numerals, as the flags print integers. */
  function DigitChar(d: nat): char
    requires d < 10
  {
    "0123456789"[d]
  }

  function NatToString(n: nat): string
    decreases n
  {
    if n < 10 then [DigitChar(n)] else NatToString(n / 10) + [DigitChar(n % 10)]
  }

  predicate IsDigit(c: char) {
    '0' <= c <= '9'
  }

  /** Reads back a string of decimal digits. */
  function ParseNat(s: string): nat
    requires forall i :: 0 <= i < |s| ==> IsDigit(s[i])
  {
    if |s| == 0 then 0
    else
      assert IsDigit(s[|s| - 1]);
      ParseNat(s[..|s| - 1]) * 10 + (s[|s| - 1] as int - '0' as int)
  }

  /** Printing a number gives a non-empty digit string that reads back as the number. */
  lemma {:induction false} NatToStringRoundTrip(n: nat)
    ensures |NatToString(n)| > 0
    ensures forall i :: 0 <= i < |NatToString(n)| ==> IsDigit(NatToString(n)[i])
    ensures ParseNat(NatToString(n)) == n
    decreases n
  {
    var s := NatToString(n);
    if n >= 10 {
      NatToStringRoundTrip(n / 10);
      assert s[..|s| - 1] == NatToString(n / 10);
    }
  }

  /** The kubelet section of a node pool, as the operator writes it. */
  datatype KubeletConfiguration = KubeletConfiguration(
    clusterDNS: seq<string>,
    containerRuntime: Option<string>,
    maxPods: Option<nat>,
    podsPerCore: Option<nat>,
    systemReserved: map<string, string>,
    kubeReserved: map<string, string>,
    evictionHard: map<string, string>,
    evictionSoft: map<string, string>,
    evictionSoftGracePeriod: map<string, string>,
    evictionMaxPodGracePeriod: Option<nat>,
    imageGCHighThresholdPercent: Option<nat>,
    imageGCLowThresholdPercent: Option<nat>,
    cpuCFSQuota: Option<bool>)

  /** The cluster-wide context: the discovered DNS service address and the pod-density mode. */
  datatype ClusterSettings = ClusterSettings(clusterName: string, clusterEndpoint: string, kubeDnsIp: string,
                                             eniLimitedPodDensity: bool)

  /**
    What the launch itself contributes: the node's labels, whether GPU or
    Neuron accelerators are requested, and the instance type's ENI-limited pod count.
   */
  datatype NodeShape = NodeShape(labels: map<string, string>, accelerated: bool, eniLimitedPods: nat)

  /** The pod limit kubelet uses when ENI-limited density is off. */
  const DefaultMaxPods: nat := 110

  const DefaultContainerRuntime: string := "containerd"

  /** Labels in this domain may only be set by the control plane, never by the node itself. */
  const NodeRestrictionPrefix: string := "node-restriction.kubernetes.io/"

  predicate IsRestrictedLabel(key: string) {
    |NodeRestrictionPrefix| <= |key| && key[..|NodeRestrictionPrefix|] == NodeRestrictionPrefix
  }

  /** The address the node's kubelet uses for cluster DNS: the first override, else the discovered service. */
  function ClusterDnsIp(kc: KubeletConfiguration, settings: ClusterSettings): string {
    if |kc.clusterDNS| > 0 then kc.clusterDNS[0] else settings.kubeDnsIp
  }

  predicate IsIPv6(ip: string) {
    ':' in ip
  }

  function ResolvedMaxPods(kc: KubeletConfiguration, settings: ClusterSettings, shape: NodeShape): nat {
    match kc.maxPods
    case Some(n) => n
    case None => if settings.eniLimitedPodDensity then shape.eniLimitedPods else DefaultMaxPods
  }

  /** Accelerated nodes always run containerd; otherwise the operator's choice, defaulting to containerd. */
  function ResolvedContainerRuntime(kc: KubeletConfiguration, shape: NodeShape): string {
    if shape.accelerated then DefaultContainerRuntime else kc.containerRuntime.GetOr(DefaultContainerRuntime)
  }

  function ForwardedLabels(labels: map<string, string>): (r: map<string, string>)
    ensures forall k :: k in r <==> k in labels && !IsRestrictedLabel(k)
    ensures forall k :: k in r ==> r[k] == labels[k]
  {
    map k | k in labels && !IsRestrictedLabel(k) :: labels[k]
  }

  /** One argument of `--kubelet-extra-args`. */
  datatype KubeletFlag =
    | NodeLabelsFlag(labels: map<string, string>)
    | MaxPodsFlag(n: nat)
    | PodsPerCoreFlag(n: nat)
    | SystemReservedFlag(entries: map<string, string>)
    | KubeReservedFlag(entries: map<string, string>)
    | EvictionHardFlag(entries: map<string, string>)
    | EvictionSoftFlag(entries: map<string, string>)
    | EvictionSoftGracePeriodFlag(entries: map<string, string>)
    | EvictionMaxPodGracePeriodFlag(n: nat)
    | ImageGCHighThresholdFlag(n: nat)
    | ImageGCLowThresholdFlag(n: nat)
    | CpuCfsQuotaFlag(enabled: bool)
  {
    /** The flag's position in the fixed order in which flags are written. */
    function Kind(): nat {
      match this
      case NodeLabelsFlag(_) => 0
      case MaxPodsFlag(_) => 1
      case PodsPerCoreFlag(_) => 2
      case SystemReservedFlag(_) => 3
      case KubeReservedFlag(_) => 4
      case EvictionHardFlag(_) => 5
      case EvictionSoftFlag(_) => 6
      case EvictionSoftGracePeriodFlag(_) => 7
      case EvictionMaxPodGracePeriodFlag(_) => 8
      case ImageGCHighThresholdFlag(_) => 9
      case ImageGCLowThresholdFlag(_) => 10
      case CpuCfsQuotaFlag(_) => 11
    }
  }

  /** The text of a single-valued kubelet flag; map-valued flags have no fixed entry order and are not rendered. */
  function RenderFlag(f: KubeletFlag): Option<string> {
    match f
    case MaxPodsFlag(n) => Some("--max-pods=" + NatToString(n))
    case PodsPerCoreFlag(n) => Some("--pods-per-core=" + NatToString(n))
    case EvictionMaxPodGracePeriodFlag(n) => Some("--eviction-max-pod-grace-period=" + NatToString(n))
    case ImageGCHighThresholdFlag(n) => Some("--image-gc-high-threshold=" + NatToString(n))
    case ImageGCLowThresholdFlag(n) => Some("--image-gc-low-threshold=" + NatToString(n))
    case CpuCfsQuotaFlag(b) => Some("--cpu-cfs-quota=" + (if b then "true" else "false"))
    case _ => None
  }

  /** Slot `k` is empty or holds a flag of kind `k`. */
  predicate WellKinded(slots: seq<Option<KubeletFlag>>) {
    forall k :: 0 <= k < |slots| && slots[k].Some? ==> slots[k].value.Kind() == k
  }

  /** The flags of the filled slots, in slot order. */
  function Compact(slots: seq<Option<KubeletFlag>>): seq<KubeletFlag>
    decreases |slots|
  {
    if |slots| == 0 then []
    else
      var last := slots[|slots| - 1];
      Compact(slots[..|slots| - 1]) + (if last.Some? then [last.value] else [])
  }

  /** A flag is written exactly when its own slot holds it. */
  lemma {:induction false} CompactMembers(slots: seq<Option<KubeletFlag>>, f: KubeletFlag)
    requires WellKinded(slots)
    ensures f in Compact(slots) <==> f.Kind() < |slots| && slots[f.Kind()] == Some(f)
    decreases |slots|
  {
    if |slots| > 0 {
      var init := slots[..|slots| - 1];
      assert WellKinded(init) by {
        forall k | 0 <= k < |init| && init[k].Some? ensures init[k].value.Kind() == k {
          assert init[k] == slots[k];
        }
      }
      CompactMembers(init, f);
      if f.Kind() < |init| {
        assert init[f.Kind()] == slots[f.Kind()];
      }
    }
  }

  /** Written flags come in strictly increasing kind order, so no kind is written twice. */
  lemma {:induction false} CompactIncreasing(slots: seq<Option<KubeletFlag>>)
    requires WellKinded(slots)
    ensures forall i :: 0 <= i < |Compact(slots)| ==> Compact(slots)[i].Kind() < |slots|
    ensures forall i, j :: 0 <= i < j < |Compact(slots)| ==> Compact(slots)[i].Kind() < Compact(slots)[j].Kind()
    decreases |slots|
  {
    if |slots| > 0 {
      var init := slots[..|slots| - 1];
      assert WellKinded(init) by {
        forall k | 0 <= k < |init| && init[k].Some? ensures init[k].value.Kind() == k {
          assert init[k] == slots[k];
        }
      }
      CompactIncreasing(init);
    }
  }

  /** The flag of kind `k` a launch contributes, if any. */
  function FlagSlot(kc: KubeletConfiguration, settings: ClusterSettings, shape: NodeShape, k: nat): (slot: Option<KubeletFlag>)
    ensures slot.Some? ==> slot.value.Kind() == k
  {
    if k == 0 then Some(NodeLabelsFlag(ForwardedLabels(shape.labels)))
    else if k == 1 then Some(MaxPodsFlag(ResolvedMaxPods(kc, settings, shape)))
    else if k == 2 then (if kc.podsPerCore.Some? then Some(PodsPerCoreFlag(kc.podsPerCore.value)) else None)
    else if k == 3 then (if |kc.systemReserved| > 0 then Some(SystemReservedFlag(kc.systemReserved)) else None)
    else if k == 4 then (if |kc.kubeReserved| > 0 then Some(KubeReservedFlag(kc.kubeReserved)) else None)
    else if k == 5 then (if |kc.evictionHard| > 0 then Some(EvictionHardFlag(kc.evictionHard)) else None)
    else if k == 6 then (if |kc.evictionSoft| > 0 then Some(EvictionSoftFlag(kc.evictionSoft)) else None)
    else if k == 7 then
      (if |kc.evictionSoftGracePeriod| > 0 then Some(EvictionSoftGracePeriodFlag(kc.evictionSoftGracePeriod)) else None)
    else if k == 8 then
      (if kc.evictionMaxPodGracePeriod.Some? then Some(EvictionMaxPodGracePeriodFlag(kc.evictionMaxPodGracePeriod.value)) else None)
    else if k == 9 then
      (if kc.imageGCHighThresholdPercent.Some? then Some(ImageGCHighThresholdFlag(kc.imageGCHighThresholdPercent.value)) else None)
    else if k == 10 then
      (if kc.imageGCLowThresholdPercent.Some? then Some(ImageGCLowThresholdFlag(kc.imageGCLowThresholdPercent.value)) else None)
    else if k == 11 then (if kc.cpuCFSQuota.Some? then Some(CpuCfsQuotaFlag(kc.cpuCFSQuota.value)) else None)
    else None
  }

  const FlagKinds: nat := 12

  /**
    The kubelet flags of a launch: the forwarded labels and the resolved max
    pods always, every other setting exactly when the operator gave it (a map
    setting when it is non-empty), and no kind of flag twice.
   */
  function KubeletFlags(kc: KubeletConfiguration, settings: ClusterSettings, shape: NodeShape): (flags: seq<KubeletFlag>)
    ensures forall f :: f in flags <==> FlagSlot(kc, settings, shape, f.Kind()) == Some(f)
  {
    var slots := seq(FlagKinds, k requires 0 <= k < FlagKinds => FlagSlot(kc, settings, shape, k));
    assert WellKinded(slots);
    forall f {
      CompactMembers(slots, f);
    }
    Compact(slots)
  }

  /** Flags are written in a fixed kind order, so no kind of flag is written twice. */
  lemma KubeletFlagsDistinct(kc: KubeletConfiguration, settings: ClusterSettings, shape: NodeShape)
    ensures var flags := KubeletFlags(kc, settings, shape);
            forall i, j :: 0 <= i < j < |flags| ==> flags[i].Kind() < flags[j].Kind()
  {
    var slots := seq(FlagKinds, k requires 0 <= k < FlagKinds => FlagSlot(kc, settings, shape, k));
    assert WellKinded(slots);
    CompactIncreasing(slots);
  }

  /** The forwarded labels and the resolved max pods are always written, with exactly those values. */
  lemma KubeletFlagsAlways(kc: KubeletConfiguration, settings: ClusterSettings, shape: NodeShape)
    ensures var flags := KubeletFlags(kc, settings, shape);
            && (forall l :: NodeLabelsFlag(l) in flags <==> l == ForwardedLabels(shape.labels))
            && (forall n: nat :: MaxPodsFlag(n) in flags <==> n == ResolvedMaxPods(kc, settings, shape))
  {
  }

  /** Every single-valued optional setting is written exactly when the operator gave it, with its value. */
  lemma KubeletFlagsOptional(kc: KubeletConfiguration, settings: ClusterSettings, shape: NodeShape)
    ensures var flags := KubeletFlags(kc, settings, shape);
            && (forall n: nat :: PodsPerCoreFlag(n) in flags <==> kc.podsPerCore == Some(n))
            && (forall n: nat :: EvictionMaxPodGracePeriodFlag(n) in flags <==> kc.evictionMaxPodGracePeriod == Some(n))
            && (forall n: nat :: ImageGCHighThresholdFlag(n) in flags <==> kc.imageGCHighThresholdPercent == Some(n))
            && (forall n: nat :: ImageGCLowThresholdFlag(n) in flags <==> kc.imageGCLowThresholdPercent == Some(n))
            && (forall b :: CpuCfsQuotaFlag(b) in flags <==> kc.cpuCFSQuota == Some(b))
  {
    var flags := KubeletFlags(kc, settings, shape);
    forall n: nat ensures PodsPerCoreFlag(n) in flags <==> kc.podsPerCore == Some(n) {
      assert PodsPerCoreFlag(n).Kind() == 2;
    }
    forall n: nat ensures EvictionMaxPodGracePeriodFlag(n) in flags <==> kc.evictionMaxPodGracePeriod == Some(n) {
      assert EvictionMaxPodGracePeriodFlag(n).Kind() == 8;
    }
    forall n: nat ensures ImageGCHighThresholdFlag(n) in flags <==> kc.imageGCHighThresholdPercent == Some(n) {
      assert ImageGCHighThresholdFlag(n).Kind() == 9;
    }
    forall n: nat ensures ImageGCLowThresholdFlag(n) in flags <==> kc.imageGCLowThresholdPercent == Some(n) {
      assert ImageGCLowThresholdFlag(n).Kind() == 10;
    }
  }

  /** Reserved resources and eviction thresholds are written as given, and only when non-empty. */
  lemma KubeletMapFlagsPresence(kc: KubeletConfiguration, settings: ClusterSettings, shape: NodeShape)
    ensures var flags := KubeletFlags(kc, settings, shape);
            && (forall m :: SystemReservedFlag(m) in flags <==> |kc.systemReserved| > 0 && m == kc.systemReserved)
            && (forall m :: KubeReservedFlag(m) in flags <==> |kc.kubeReserved| > 0 && m == kc.kubeReserved)
            && (forall m :: EvictionHardFlag(m) in flags <==> |kc.evictionHard| > 0 && m == kc.evictionHard)
            && (forall m :: EvictionSoftFlag(m) in flags <==> |kc.evictionSoft| > 0 && m == kc.evictionSoft)
            && (forall m :: EvictionSoftGracePeriodFlag(m) in flags <==>
                  |kc.evictionSoftGracePeriod| > 0 && m == kc.evictionSoftGracePeriod)
  {
  }

  /** No label in the node-restriction domain is ever passed to kubelet. */
  lemma NoRestrictedLabelForwarded(kc: KubeletConfiguration, settings: ClusterSettings, shape: NodeShape, l: map<string, string>)
    requires NodeLabelsFlag(l) in KubeletFlags(kc, settings, shape)
    ensures forall k :: k in l ==> !IsRestrictedLabel(k) && k in shape.labels && l[k] == shape.labels[k]
  {
  }

  /** One argument of the bootstrap script. */
  datatype BootstrapArg =
    | ContainerRuntimeArg(runtime: string)
    | DnsClusterIpArg(ip: string)
    | UseMaxPodsArg(enabled: bool)
    | KubeletExtraArgs(flags: seq<KubeletFlag>)
    | IpFamilyIPv6Arg
  {
    function Kind(): nat {
      match this
      case ContainerRuntimeArg(_) => 0
      case DnsClusterIpArg(_) => 1
      case UseMaxPodsArg(_) => 2
      case KubeletExtraArgs(_) => 3
      case IpFamilyIPv6Arg => 4
    }
  }

  /** The text of a bootstrap argument other than the kubelet pass-through. */
  function RenderArg(a: BootstrapArg): Option<string> {
    match a
    case ContainerRuntimeArg(r) => Some("--container-runtime " + r)
    case DnsClusterIpArg(ip) => Some("--dns-cluster-ip '" + ip + "'")
    case IpFamilyIPv6Arg => Some("--ip-family ipv6")
    case UseMaxPodsArg(b) => Some("--use-max-pods " + (if b then "true" else "false"))
    case KubeletExtraArgs(_) => None
  }

  /**
    The arguments of the AL2 and Ubuntu bootstrap script: the script's own pod
    limit always off in favour of kubelet's `--max-pods`, one container
    runtime, the cluster DNS address, the kubelet flags, and the IPv6 family
    exactly when the DNS address is IPv6.
   */
  function ShellArgs(kc: KubeletConfiguration, settings: ClusterSettings, shape: NodeShape): (args: seq<BootstrapArg>)
    ensures forall b :: UseMaxPodsArg(b) in args <==> !b
    ensures forall r :: ContainerRuntimeArg(r) in args <==> r == ResolvedContainerRuntime(kc, shape)
    ensures forall ip :: DnsClusterIpArg(ip) in args <==> ip == ClusterDnsIp(kc, settings)
    ensures forall fs :: KubeletExtraArgs(fs) in args <==> fs == KubeletFlags(kc, settings, shape)
    ensures IpFamilyIPv6Arg in args <==> IsIPv6(ClusterDnsIp(kc, settings))
  {
    var dns := ClusterDnsIp(kc, settings);
    var runtime := ContainerRuntimeArg(ResolvedContainerRuntime(kc, shape));
    var kubelet := KubeletExtraArgs(KubeletFlags(kc, settings, shape));
    if IsIPv6(dns) then [runtime, DnsClusterIpArg(dns), UseMaxPodsArg(false), kubelet, IpFamilyIPv6Arg]
    else [runtime, DnsClusterIpArg(dns), UseMaxPodsArg(false), kubelet]
  }

  /** No kind of bootstrap argument is passed twice. */
  lemma ShellArgsDistinct(kc: KubeletConfiguration, settings: ClusterSettings, shape: NodeShape)
    ensures var args := ShellArgs(kc, settings, shape);
            forall i, j :: 0 <= i < j < |args| ==> args[i].Kind() != args[j].Kind()
  {
  }

  /** A part of a multi-part user-data archive. */
  datatype MimePart = UserPart(contentType: string, body: string) | BootstrapPart(args: seq<BootstrapArg>)

  /**
    What the archive reader makes of the operator's text: no archive at all
    (a plain script), the parts of a well-formed archive, or an archive that
    announces itself but cannot be read.
   */
  datatype ArchiveReading = NotAnArchive | ArchiveParts(parts: seq<MimePart>) | MalformedArchive

  /**
    The archive of an AL2 or Ubuntu node: the operator's parts first (a
    non-archive script becomes one shell-script part), then the bootstrap.
    `splitArchive` stands for the archive reader; an archive it cannot read
    fails the launch.
   */
  function ShellUserData(userData: Option<string>, splitArchive: string -> ArchiveReading,
                         args: seq<BootstrapArg>): (r: Result<seq<MimePart>, BootstrapError>)
    ensures r.Err? <==> userData.Some? && splitArchive(userData.value).MalformedArchive?
    ensures r.Err? ==> r.error == InvalidUserDataArchive
    ensures r.Ok? ==> |r.value| > 0 && r.value[|r.value| - 1] == BootstrapPart(args)
    ensures userData.None? ==> r == Ok([BootstrapPart(args)])
    ensures userData.Some? && splitArchive(userData.value).NotAnArchive? ==>
              r == Ok([UserPart("text/x-shellscript", userData.value), BootstrapPart(args)])
    ensures userData.Some? && splitArchive(userData.value).ArchiveParts? ==>
              r.Ok? && r.value[..|r.value| - 1] == splitArchive(userData.value).parts
  {
    match userData
    case None => Ok([BootstrapPart(args)])
    case Some(u) =>
      match splitArchive(u)
      case NotAnArchive => Ok([UserPart("text/x-shellscript", u), BootstrapPart(args)])
      case ArchiveParts(ps) => Ok(ps + [BootstrapPart(args)])
      case MalformedArchive => Err(InvalidUserDataArchive)
  }

  /** The Kubernetes section of a Bottlerocket settings file, as far as the synthesizer touches it. */
  datatype KubernetesSettings = KubernetesSettings(
    clusterName: Option<string>,
    apiServer: Option<string>,
    clusterDnsIp: Option<string>,
    maxPods: Option<nat>,
    systemReserved: Option<map<string, string>>,
    kubeReserved: Option<map<string, string>>,
    evictionHard: Option<map<string, string>>,
    imageGCHighThresholdPercent: Option<string>,
    imageGCLowThresholdPercent: Option<string>,
    cpuCfsQuota: Option<bool>,
    nodeLabels: map<string, string>)

  /** A Bottlerocket settings file: the Kubernetes section and every other section, kept as they are. */
  datatype BottlerocketConfig = BottlerocketConfig(kubernetes: KubernetesSettings, otherSettings: map<string, string>)

  function SetIfNonEmpty(m: map<string, string>): Option<map<string, string>> {
    if |m| > 0 then Some(m) else None
  }

  /** A setting holding a decimal numeral that reads back as `n`. */
  predicate ReadsBackAs(s: Option<string>, n: nat) {
    && s.Some?
    && (forall i :: 0 <= i < |s.value| ==> IsDigit(s.value[i]))
    && ParseNat(s.value) == n
  }

  /** A number the operator gives is written as a numeral that reads back as it; an absent one stays absent. */
  function NumeralOf(n: Option<nat>): (r: Option<string>)
    ensures n.Some? ==> ReadsBackAs(r, n.value)
    ensures n.None? ==> r.None?
  {
    match n
    case None => None
    case Some(v) => NatToStringRoundTrip(v); Some(NatToString(v))
  }

  /** The Kubernetes settings the synthesizer contributes; None leaves the field to the operator. */
  function SynthesizedSettings(kc: KubeletConfiguration, settings: ClusterSettings, shape: NodeShape): KubernetesSettings {
    KubernetesSettings(
      Some(settings.clusterName), Some(settings.clusterEndpoint), Some(ClusterDnsIp(kc, settings)),
      Some(ResolvedMaxPods(kc, settings, shape)),
      SetIfNonEmpty(kc.systemReserved), SetIfNonEmpty(kc.kubeReserved), SetIfNonEmpty(kc.evictionHard),
      NumeralOf(kc.imageGCHighThresholdPercent), NumeralOf(kc.imageGCLowThresholdPercent),
      kc.cpuCFSQuota, ForwardedLabels(shape.labels))
  }

  function Over<T>(user: Option<T>, synthesized: Option<T>): Option<T> {
    if synthesized.Some? then synthesized else user
  }

  /** A synthesized value replaces the operator's; a field the synthesizer leaves unset keeps the operator's value. */
  ghost predicate OverlaidField<T>(result: Option<T>, user: Option<T>, synthesized: Option<T>) {
    result == (if synthesized.Some? then synthesized else user)
  }

  function Overlay(user: KubernetesSettings, s: KubernetesSettings): (r: KubernetesSettings)
    ensures OverlaidField(r.clusterName, user.clusterName, s.clusterName)
    ensures OverlaidField(r.apiServer, user.apiServer, s.apiServer)
    ensures OverlaidField(r.clusterDnsIp, user.clusterDnsIp, s.clusterDnsIp)
    ensures OverlaidField(r.maxPods, user.maxPods, s.maxPods)
    ensures OverlaidField(r.systemReserved, user.systemReserved, s.systemReserved)
    ensures OverlaidField(r.kubeReserved, user.kubeReserved, s.kubeReserved)
    ensures OverlaidField(r.evictionHard, user.evictionHard, s.evictionHard)
    ensures OverlaidField(r.imageGCHighThresholdPercent, user.imageGCHighThresholdPercent, s.imageGCHighThresholdPercent)
    ensures OverlaidField(r.imageGCLowThresholdPercent, user.imageGCLowThresholdPercent, s.imageGCLowThresholdPercent)
    ensures OverlaidField(r.cpuCfsQuota, user.cpuCfsQuota, s.cpuCfsQuota)
    ensures r.nodeLabels.Keys == user.nodeLabels.Keys + s.nodeLabels.Keys
    ensures forall k :: k in r.nodeLabels ==> r.nodeLabels[k] == if k in s.nodeLabels then s.nodeLabels[k] else user.nodeLabels[k]
  {
    KubernetesSettings(
      Over(user.clusterName, s.clusterName), Over(user.apiServer, s.apiServer), Over(user.clusterDnsIp, s.clusterDnsIp),
      Over(user.maxPods, s.maxPods), Over(user.systemReserved, s.systemReserved), Over(user.kubeReserved, s.kubeReserved),
      Over(user.evictionHard, s.evictionHard),
      Over(user.imageGCHighThresholdPercent, s.imageGCHighThresholdPercent),
      Over(user.imageGCLowThresholdPercent, s.imageGCLowThresholdPercent),
      Over(user.cpuCfsQuota, s.cpuCfsQuota), user.nodeLabels + s.nodeLabels)
  }

  /**
    Overlaying is idempotent: feeding a merged configuration back in as the
    operator's and overlaying the same synthesized settings changes nothing,
    so the bootstrap section is never duplicated.
   */
  lemma OverlayIdempotent(user: KubernetesSettings, s: KubernetesSettings)
    ensures Overlay(Overlay(user, s), s) == Overlay(user, s)
  {
    var once := Overlay(user, s);
    assert once.nodeLabels + s.nodeLabels == once.nodeLabels;
  }

  /** Every sub-setting the synthesizer sets wins over the operator's. */
  lemma OverlaySynthesizedWins(user: KubernetesSettings, kc: KubeletConfiguration, settings: ClusterSettings, shape: NodeShape)
    ensures var r := Overlay(user, SynthesizedSettings(kc, settings, shape));
            && r.clusterName == Some(settings.clusterName)
            && r.apiServer == Some(settings.clusterEndpoint)
            && r.clusterDnsIp == Some(ClusterDnsIp(kc, settings))
            && r.maxPods == Some(ResolvedMaxPods(kc, settings, shape))
            && (|kc.systemReserved| > 0 ==> r.systemReserved == Some(kc.systemReserved))
            && (|kc.systemReserved| == 0 ==> r.systemReserved == user.systemReserved)
            && (|kc.kubeReserved| > 0 ==> r.kubeReserved == Some(kc.kubeReserved))
            && (|kc.kubeReserved| == 0 ==> r.kubeReserved == user.kubeReserved)
            && (|kc.evictionHard| > 0 ==> r.evictionHard == Some(kc.evictionHard))
            && (|kc.evictionHard| == 0 ==> r.evictionHard == user.evictionHard)
            && (kc.imageGCHighThresholdPercent.Some? ==>
                  ReadsBackAs(r.imageGCHighThresholdPercent, kc.imageGCHighThresholdPercent.value))
            && (kc.imageGCHighThresholdPercent.None? ==> r.imageGCHighThresholdPercent == user.imageGCHighThresholdPercent)
            && (kc.imageGCLowThresholdPercent.Some? ==>
                  ReadsBackAs(r.imageGCLowThresholdPercent, kc.imageGCLowThresholdPercent.value))
            && (kc.imageGCLowThresholdPercent.None? ==> r.imageGCLowThresholdPercent == user.imageGCLowThresholdPercent)
            && (kc.cpuCFSQuota.Some? ==> r.cpuCfsQuota == kc.cpuCFSQuota)
            && (kc.cpuCFSQuota.None? ==> r.cpuCfsQuota == user.cpuCfsQuota)
            && user.nodeLabels.Keys <= r.nodeLabels.Keys
            && (forall k :: k in r.nodeLabels && IsRestrictedLabel(k) ==> k in user.nodeLabels && r.nodeLabels[k] == user.nodeLabels[k])
  {
  }

  /** The rendered user data of a launch. */
  datatype UserData =
    | Archive(parts: seq<MimePart>)
    | Toml(config: BottlerocketConfig)
    | PowerShell(userScript: Option<string>, flags: seq<KubeletFlag>)
    | Verbatim(text: string)

  /** Why user data cannot be rendered: an unreadable settings file or an unreadable archive. */
  datatype BootstrapError = InvalidBottlerocketSettings | InvalidUserDataArchive

  /**
    The user data for a family. `readToml` stands for the settings-file
    reader, None meaning the operator's text is not a valid settings file;
    that, like an unreadable archive, fails the launch rather than being
    dropped.
   */
  function UserDataFor(family: AmiFamily, userData: Option<string>, kc: KubeletConfiguration, settings: ClusterSettings,
                       shape: NodeShape, splitArchive: string -> ArchiveReading,
                       readToml: string -> Option<BottlerocketConfig>): (r: Result<UserData, BootstrapError>)
    ensures family == Custom ==> r == Ok(Verbatim(userData.GetOr("")))
    ensures family == Bottlerocket ==> (r.Err? <==> userData.Some? && readToml(userData.value).None?)
    ensures family == Bottlerocket && r.Ok? ==>
              && r.value.Toml?
              && r.value.config.kubernetes == Overlay(if userData.Some? then readToml(userData.value).value.kubernetes
                                                      else EmptyKubernetesSettings(),
                                                      SynthesizedSettings(kc, settings, shape))
              && (userData.Some? ==> r.value.config.otherSettings == readToml(userData.value).value.otherSettings)
    ensures (family == AL2 || family == Ubuntu) ==>
              && (r.Err? <==> userData.Some? && splitArchive(userData.value).MalformedArchive?)
              && (r.Ok? ==> r.value.Archive? && |r.value.parts| > 0
                            && r.value.parts[|r.value.parts| - 1] == BootstrapPart(ShellArgs(kc, settings, shape)))
    ensures IsWindows(family) ==> r == Ok(PowerShell(userData, KubeletFlags(kc, settings, shape)))
  {
    match family
    case Custom => Ok(Verbatim(userData.GetOr("")))
    case AL2 => ShellArchive(userData, splitArchive, ShellArgs(kc, settings, shape))
    case Ubuntu => ShellArchive(userData, splitArchive, ShellArgs(kc, settings, shape))
    case Windows2019 => Ok(PowerShell(userData, KubeletFlags(kc, settings, shape)))
    case Windows2022 => Ok(PowerShell(userData, KubeletFlags(kc, settings, shape)))
    case Bottlerocket =>
      var base :=
        match userData
        case None => Some(BottlerocketConfig(EmptyKubernetesSettings(), map[]))
        case Some(u) => readToml(u);
      match base
      case None => Err(InvalidBottlerocketSettings)
      case Some(c) => Ok(Toml(c.(kubernetes := Overlay(c.kubernetes, SynthesizedSettings(kc, settings, shape)))))
  }

  function ShellArchive(userData: Option<string>, splitArchive: string -> ArchiveReading,
                        args: seq<BootstrapArg>): Result<UserData, BootstrapError> {
    match ShellUserData(userData, splitArchive, args)
    case Ok(parts) => Ok(Archive(parts))
    case Err(e) => Err(e)
  }

  function EmptyKubernetesSettings(): KubernetesSettings {
    KubernetesSettings(None, None, None, None, None, None, None, None, None, None, map[])
  }

  /** A kubelet section with nothing set. */
  function NoKubelet(): KubeletConfiguration {
    KubeletConfiguration([], None, None, None, map[], map[], map[], map[], map[], None, None, None, None)
  }

  /** The settings of the user-data tests: DNS service 10.0.100.10, ENI-limited density on. */
  function TestSettings(): ClusterSettings {
    ClusterSettings("test-cluster", "https://test-cluster", "10.0.100.10", true)
  }

  /** The exact bootstrap-argument texts the user-data tests look for. */
  lemma ArgTexts()
    ensures RenderArg(UseMaxPodsArg(false)) == Some("--use-max-pods false")
    ensures RenderArg(ContainerRuntimeArg("containerd")) == Some("--container-runtime containerd")
    ensures RenderArg(ContainerRuntimeArg("dockerd")) == Some("--container-runtime dockerd")
    ensures RenderArg(DnsClusterIpArg("10.0.100.10")) == Some("--dns-cluster-ip '10.0.100.10'")
    ensures RenderArg(DnsClusterIpArg("fd4b:121b:812b::a")) == Some("--dns-cluster-ip 'fd4b:121b:812b::a'")
    ensures RenderArg(IpFamilyIPv6Arg) == Some("--ip-family ipv6")
  {
    assert "--use-max-pods " + "false" == "--use-max-pods false";
    assert "--container-runtime " + "containerd" == "--container-runtime containerd";
    assert "--container-runtime " + "dockerd" == "--container-runtime dockerd";
    assert "--dns-cluster-ip '" + "10.0.100.10" + "'" == "--dns-cluster-ip '10.0.100.10'";
    assert "--dns-cluster-ip '" + "fd4b:121b:812b::a" + "'" == "--dns-cluster-ip 'fd4b:121b:812b::a'";
  }

  /** The exact kubelet-flag texts the user-data tests look for. */
  lemma FlagTexts()
    ensures RenderFlag(MaxPodsFlag(110)) == Some("--max-pods=110")
    ensures RenderFlag(MaxPodsFlag(10)) == Some("--max-pods=10")
    ensures RenderFlag(PodsPerCoreFlag(2)) == Some("--pods-per-core=2")
    ensures RenderFlag(EvictionMaxPodGracePeriodFlag(300)) == Some("--eviction-max-pod-grace-period=300")
    ensures RenderFlag(ImageGCHighThresholdFlag(50)) == Some("--image-gc-high-threshold=50")
    ensures RenderFlag(ImageGCLowThresholdFlag(50)) == Some("--image-gc-low-threshold=50")
    ensures RenderFlag(CpuCfsQuotaFlag(false)) == Some("--cpu-cfs-quota=false")
  {
    assert "--cpu-cfs-quota=" + "false" == "--cpu-cfs-quota=false";
    assert NatToString(11) == "11" by { assert NatToString(1) == "1"; }
    assert NatToString(110) == "110";
    assert "--max-pods=" + "110" == "--max-pods=110";
    assert NatToString(10) == "10";
    assert "--max-pods=" + "10" == "--max-pods=10";
    assert NatToString(2) == "2";
    assert "--pods-per-core=" + "2" == "--pods-per-core=2";
    assert NatToString(30) == "30" by { assert NatToString(3) == "3"; }
    assert NatToString(300) == "300";
    assert "--eviction-max-pod-grace-period=" + "300" == "--eviction-max-pod-grace-period=300";
    assert NatToString(50) == "50" by { assert NatToString(5) == "5"; }
    assert "--image-gc-high-threshold=" + "50" == "--image-gc-high-threshold=50";
    assert "--image-gc-low-threshold=" + "50" == "--image-gc-low-threshold=50";
  }

  /** Max pods: 110 with ENI-limited density off, the operator's value when given, and always the script's own limit off. */
  lemma MaxPodsScenarios(shape: NodeShape)
    ensures MaxPodsFlag(110) in KubeletFlags(NoKubelet(), TestSettings().(eniLimitedPodDensity := false), shape)
    ensures MaxPodsFlag(10) in KubeletFlags(NoKubelet().(maxPods := Some(10)), TestSettings(), shape)
    ensures var flags := KubeletFlags(NoKubelet().(maxPods := Some(100), podsPerCore := Some(2)), TestSettings(), shape);
            MaxPodsFlag(100) in flags && PodsPerCoreFlag(2) in flags
    ensures UseMaxPodsArg(false) in ShellArgs(NoKubelet(), TestSettings(), shape)
  {
  }

  /** Runtime: containerd by default and for accelerated nodes even when dockerd is asked for; dockerd otherwise when asked. */
  lemma ContainerRuntimeScenarios(labels: map<string, string>, pods: nat)
    ensures ResolvedContainerRuntime(NoKubelet(), NodeShape(labels, false, pods)) == "containerd"
    ensures ResolvedContainerRuntime(NoKubelet().(containerRuntime := Some("dockerd")), NodeShape(labels, false, pods)) == "dockerd"
    ensures ResolvedContainerRuntime(NoKubelet().(containerRuntime := Some("dockerd")), NodeShape(labels, true, pods)) == "containerd"
  {
  }

  /** DNS: the discovered IPv4 address, an override, and an IPv6 address that also sets the IPv6 family. */
  lemma DnsScenarios(shape: NodeShape)
    ensures DnsClusterIpArg("10.0.100.10") in ShellArgs(NoKubelet(), TestSettings(), shape)
    ensures IpFamilyIPv6Arg !in ShellArgs(NoKubelet(), TestSettings(), shape)
    ensures DnsClusterIpArg("10.0.10.100") in ShellArgs(NoKubelet().(clusterDNS := ["10.0.10.100"]), TestSettings(), shape)
    ensures var args := ShellArgs(NoKubelet(), TestSettings().(kubeDnsIp := "fd4b:121b:812b::a"), shape);
            DnsClusterIpArg("fd4b:121b:812b::a") in args && IpFamilyIPv6Arg in args
  {
    assert !IsIPv6("10.0.100.10");
    assert IsIPv6("fd4b:121b:812b::a") by { assert "fd4b:121b:812b::a"[4] == ':'; }
  }

  /** Bottlerocket: reserved resources, max pods, the discovered DNS address and the CFS quota reach the settings file. */
  lemma BottlerocketScenarios(shape: NodeShape, split: string -> ArchiveReading, read: string -> Option<BottlerocketConfig>)
    ensures var reserved := map["cpu" := "2", "memory" := "3Gi", "ephemeral-storage" := "10Gi"];
            var r := UserDataFor(Bottlerocket, None, NoKubelet().(systemReserved := reserved), TestSettings(), shape, split, read);
            r.Ok? && r.value.config.kubernetes.systemReserved == Some(reserved)
    ensures var r := UserDataFor(Bottlerocket, None, NoKubelet().(maxPods := Some(10), cpuCFSQuota := Some(false)),
                                 TestSettings(), shape, split, read);
            && r.Ok? && r.value.config.kubernetes.maxPods == Some(10)
            && r.value.config.kubernetes.cpuCfsQuota == Some(false)
            && r.value.config.kubernetes.clusterDnsIp == Some("10.0.100.10")
  {
  }

  /** Bottlerocket: kube-reserved resources and hard eviction thresholds reach the settings file. */
  lemma BottlerocketReservedScenarios(shape: NodeShape, split: string -> ArchiveReading, read: string -> Option<BottlerocketConfig>)
    ensures var reserved := map["cpu" := "2", "memory" := "3Gi", "ephemeral-storage" := "10Gi"];
            var r := UserDataFor(Bottlerocket, None, NoKubelet().(kubeReserved := reserved), TestSettings(), shape, split, read);
            r.Ok? && r.value.config.kubernetes.kubeReserved == Some(reserved)
    ensures var eviction := map["memory.available" := "10%", "nodefs.available" := "15%", "nodefs.inodesFree" := "5%"];
            var r := UserDataFor(Bottlerocket, None, NoKubelet().(evictionHard := eviction), TestSettings(), shape, split, read);
            r.Ok? && r.value.config.kubernetes.evictionHard == Some(eviction)
  {
  }

  /** Bottlerocket: an image GC threshold of 50 reaches the settings file as a numeral that reads back as 50. */
  lemma BottlerocketGcScenarios(shape: NodeShape, split: string -> ArchiveReading, read: string -> Option<BottlerocketConfig>)
    ensures var r := UserDataFor(Bottlerocket, None, NoKubelet().(imageGCHighThresholdPercent := Some(50)),
                                 TestSettings(), shape, split, read);
            r.Ok? && ReadsBackAs(r.value.config.kubernetes.imageGCHighThresholdPercent, 50)
    ensures var r := UserDataFor(Bottlerocket, None, NoKubelet().(imageGCLowThresholdPercent := Some(50)),
                                 TestSettings(), shape, split, read);
            r.Ok? && ReadsBackAs(r.value.config.kubernetes.imageGCLowThresholdPercent, 50)
  {
    OverlaySynthesizedWins(EmptyKubernetesSettings(), NoKubelet().(imageGCHighThresholdPercent := Some(50)), TestSettings(), shape);
    OverlaySynthesizedWins(EmptyKubernetesSettings(), NoKubelet().(imageGCLowThresholdPercent := Some(50)), TestSettings(), shape);
  }

  /** The Custom family's user data reaches the template untouched. */
  lemma CustomScenario(kc: KubeletConfiguration, shape: NodeShape, split: string -> ArchiveReading,
                       read: string -> Option<BottlerocketConfig>)
    ensures UserDataFor(Custom, Some("special user data"), kc, TestSettings(), shape, split, read)
            == Ok(Verbatim("special user data"))
  {
  }
}
