/**
  The node-class API: the operator-declared description of how to boot an
  instance (AMI family, selector terms, user data, block devices, tags, ...).
  Go pointers that may be nil are `Option`s; Go strings that are "unset" when
  empty stay plain strings, as in the source API.
 */
module Apis {
  import opened Wrappers

  type TagMap = map<string, string>

  /** Tag keys the controller owns: the provisioner name, the managing cluster, and the cluster-ownership prefix. */
  const ProvisionerNameTagKey: string := "karpenter.sh/provisioner-name"
  const ManagedByTagKey: string := "karpenter.sh/managed-by"
  const ClusterTagPrefix: string := "kubernetes.io/cluster/"

  /** The operating-system families a node class can name. */
  datatype AmiFamily = AL2 | Bottlerocket | Ubuntu | Windows2019 | Windows2022 | Custom

  /** A node class without an explicit family is treated as AL2. */
  function FamilyOf(family: Option<AmiFamily>): AmiFamily {
    family.GetOr(AL2)
  }

  predicate IsWindows(family: AmiFamily) {
    family == Windows2019 || family == Windows2022
  }

  /** Selects subnets by a tag map or by id. */
  datatype SubnetSelectorTerm = SubnetSelectorTerm(tags: TagMap, id: string)

  /** Selects security groups by a tag map, by id or by name. */
  datatype SecurityGroupSelectorTerm = SecurityGroupSelectorTerm(tags: TagMap, id: string, name: string)

  /** Selects images by tags, id, name or parameter-store path; `owner` qualifies a name or tag query. */
  datatype AmiSelectorTerm = AmiSelectorTerm(tags: TagMap, id: string, name: string, owner: string, ssm: string)

  /** Suffixes of a resource quantity: decimal (k, M, G, T) and binary (Ki, Mi, Gi, Ti). */
  datatype Unit = Bytes | Kilo | Mega | Giga | Tera | Kibi | Mebi | Gibi | Tebi

  /** A storage quantity such as "200G" (`Quantity(200, Giga)`) or "40Gi" (`Quantity(40, Gibi)`). */
  datatype Quantity = Quantity(amount: nat, unit: Unit)

  function UnitBytes(u: Unit): nat {
    match u
    case Bytes => 1
    case Kilo => 1000
    case Mega => 1000000
    case Giga => 1000000000
    case Tera => 1000000000000
    case Kibi => 1024
    case Mebi => 1048576
    case Gibi => 1073741824
    case Tebi => 1099511627776
  }

  /** The number of bytes a quantity denotes. */
  function QuantityBytes(q: Quantity): nat {
    q.amount * UnitBytes(q.unit)
  }

  /** An EBS volume as the operator declares it. */
  datatype BlockDevice = BlockDevice(
    deleteOnTermination: Option<bool>,
    encrypted: Option<bool>,
    iops: Option<nat>,
    kmsKeyId: Option<string>,
    snapshotId: Option<string>,
    throughput: Option<nat>,
    volumeSize: Option<Quantity>,
    volumeType: Option<string>)

  datatype BlockDeviceMapping = BlockDeviceMapping(deviceName: Option<string>, ebs: Option<BlockDevice>)

  datatype MetadataOptions = MetadataOptions(
    httpEndpoint: Option<string>,
    httpProtocolIPv6: Option<string>,
    httpPutResponseHopLimit: Option<int>,
    httpTokens: Option<string>)

  datatype NodeClassSpec = NodeClassSpec(
    subnetSelectorTerms: seq<SubnetSelectorTerm>,
    securityGroupSelectorTerms: seq<SecurityGroupSelectorTerm>,
    amiSelectorTerms: seq<AmiSelectorTerm>,
    amiFamily: Option<AmiFamily>,
    userData: Option<string>,
    role: Option<string>,
    instanceProfile: Option<string>,
    tags: TagMap,
    blockDeviceMappings: seq<BlockDeviceMapping>,
    detailedMonitoring: Option<bool>,
    metadataOptions: Option<MetadataOptions>,
    context: Option<string>)
}
