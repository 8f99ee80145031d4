/**
  The block-device planner: the EBS mappings a launch template requests. An
  explicit list from the node class is kept in order with every field passed
  through, except that each volume size is converted to whole gibibytes,
  rounding up. Without an explicit list the family's defaults apply: one
  20 GiB gp3 root volume for AL2 and Ubuntu, a 4 GiB control volume followed by
  a 20 GiB data volume for Bottlerocket, a 50 GiB root volume for Windows, and
  nothing for a Custom family.
 */
module BlockDevicePlanner {
  import opened Wrappers
  import opened Apis

  const GiB: nat := 1073741824

  /** The least whole number of gibibytes holding `bytes`. */
  function CeilGiB(bytes: nat): (r: nat)
    ensures r * GiB >= bytes
    ensures r == 0 || (r - 1) * GiB < bytes
  {
    bytes / GiB + (if bytes % GiB == 0 then 0 else 1)
  }

  /** A quantity's size in whole gibibytes, rounded up. */
  function VolumeSizeGiB(q: Quantity): nat {
    CeilGiB(QuantityBytes(q))
  }

  /** A binary-gibibyte size is kept exactly. */
  lemma GibiSizeKept(n: nat)
    ensures VolumeSizeGiB(Quantity(n, Gibi)) == n
  {
    assert QuantityBytes(Quantity(n, Gibi)) == n * GiB;
  }

  /** Decimal-gigabyte sizes round up: 200G is 187 GiB, 4G is 4 GiB and 2G is 2 GiB. */
  lemma GigaSizesRoundUp()
    ensures VolumeSizeGiB(Quantity(200, Giga)) == 187
    ensures VolumeSizeGiB(Quantity(4, Giga)) == 4
    ensures VolumeSizeGiB(Quantity(2, Giga)) == 2
    ensures VolumeSizeGiB(Quantity(200, Gibi)) == 200
    ensures VolumeSizeGiB(Quantity(40, Gibi)) == 40
  {
    GibiSizeKept(200);
    GibiSizeKept(40);
  }

  /** The EBS part of a launch-template block device, with its size in GiB. */
  datatype EbsRequest = EbsRequest(
    deleteOnTermination: Option<bool>,
    encrypted: Option<bool>,
    iops: Option<nat>,
    kmsKeyId: Option<string>,
    snapshotId: Option<string>,
    throughput: Option<nat>,
    volumeSizeGiB: Option<nat>,
    volumeType: Option<string>)

  datatype BlockDeviceRequest = BlockDeviceRequest(deviceName: Option<string>, ebs: Option<EbsRequest>)

  /** Every field but the size is carried over; the size becomes whole GiB rounded up. */
  predicate ConvertedFrom(r: EbsRequest, d: BlockDevice) {
    && r.deleteOnTermination == d.deleteOnTermination
    && r.encrypted == d.encrypted
    && r.iops == d.iops
    && r.kmsKeyId == d.kmsKeyId
    && r.snapshotId == d.snapshotId
    && r.throughput == d.throughput
    && r.volumeType == d.volumeType
    && (r.volumeSizeGiB.Some? <==> d.volumeSize.Some?)
    && (d.volumeSize.Some? ==>
          && r.volumeSizeGiB.value * GiB >= QuantityBytes(d.volumeSize.value)
          && (r.volumeSizeGiB.value == 0 || (r.volumeSizeGiB.value - 1) * GiB < QuantityBytes(d.volumeSize.value)))
  }

  predicate MappingConvertedFrom(r: BlockDeviceRequest, m: BlockDeviceMapping) {
    && r.deviceName == m.deviceName
    && (r.ebs.Some? <==> m.ebs.Some?)
    && (m.ebs.Some? ==> ConvertedFrom(r.ebs.value, m.ebs.value))
  }

  function ConvertEbs(d: BlockDevice): (r: EbsRequest)
    ensures ConvertedFrom(r, d)
  {
    EbsRequest(d.deleteOnTermination, d.encrypted, d.iops, d.kmsKeyId, d.snapshotId, d.throughput,
               match d.volumeSize case None => None case Some(q) => Some(VolumeSizeGiB(q)),
               d.volumeType)
  }

  function ConvertMapping(m: BlockDeviceMapping): (r: BlockDeviceRequest)
    ensures MappingConvertedFrom(r, m)
  {
    BlockDeviceRequest(m.deviceName, match m.ebs case None => None case Some(d) => Some(ConvertEbs(d)))
  }

  /** A default volume of the given size: encrypted gp3, IOPS and throughput left to EBS. */
  function DefaultEbs(size: Quantity): BlockDevice {
    BlockDevice(None, Some(true), None, None, None, None, Some(size), Some("gp3"))
  }

  /** The family defaults, as the operator would have written them. */
  function DefaultMappings(family: AmiFamily): seq<BlockDeviceMapping> {
    match family
    case AL2 => [BlockDeviceMapping(Some("/dev/xvda"), Some(DefaultEbs(Quantity(20, Gibi))))]
    case Ubuntu => [BlockDeviceMapping(Some("/dev/sda1"), Some(DefaultEbs(Quantity(20, Gibi))))]
    case Bottlerocket => [BlockDeviceMapping(Some("/dev/xvda"), Some(DefaultEbs(Quantity(4, Gibi)))),
                          BlockDeviceMapping(Some("/dev/xvdb"), Some(DefaultEbs(Quantity(20, Gibi))))]
    case Windows2019 => [BlockDeviceMapping(Some("/dev/sda1"), Some(DefaultEbs(Quantity(50, Gibi))))]
    case Windows2022 => [BlockDeviceMapping(Some("/dev/sda1"), Some(DefaultEbs(Quantity(50, Gibi))))]
    case Custom => []
  }

  function ConvertAll(ms: seq<BlockDeviceMapping>): (rs: seq<BlockDeviceRequest>)
    ensures |rs| == |ms|
    ensures forall i :: 0 <= i < |ms| ==> MappingConvertedFrom(rs[i], ms[i])
  {
    seq(|ms|, i requires 0 <= i < |ms| => ConvertMapping(ms[i]))
  }

  /** The mappings of the launch template for a node class of the given family. */
  function Plan(mappings: seq<BlockDeviceMapping>, family: AmiFamily): (rs: seq<BlockDeviceRequest>)
    ensures |mappings| > 0 ==>
              |rs| == |mappings| && forall i :: 0 <= i < |mappings| ==> MappingConvertedFrom(rs[i], mappings[i])
  {
    ConvertAll(if |mappings| > 0 then mappings else DefaultMappings(family))
  }

  /** A default volume: gp3, encrypted, no IOPS, of the given size. */
  predicate IsDefaultVolume(r: BlockDeviceRequest, device: string, sizeGiB: nat) {
    r == BlockDeviceRequest(Some(device), Some(EbsRequest(None, Some(true), None, None, None, None, Some(sizeGiB), Some("gp3"))))
  }

  /** Without explicit mappings, AL2 gets one 20 GiB gp3 volume, Bottlerocket 4 GiB then 20 GiB, Custom none. */
  lemma FamilyDefaults(family: AmiFamily)
    ensures family == AL2 ==> var rs := Plan([], family); |rs| == 1 && IsDefaultVolume(rs[0], "/dev/xvda", 20)
    ensures family == Bottlerocket ==>
              var rs := Plan([], family);
              |rs| == 2 && IsDefaultVolume(rs[0], "/dev/xvda", 4) && IsDefaultVolume(rs[1], "/dev/xvdb", 20)
    ensures family == Custom ==> Plan([], family) == []
  {
    GibiSizeKept(20);
    GibiSizeKept(4);
  }

  /** Writes a planned request back as a mapping whose size is in Gi. */
  function Unplan(r: BlockDeviceRequest): BlockDeviceMapping {
    BlockDeviceMapping(r.deviceName, match r.ebs
      case None => None
      case Some(e) => Some(BlockDevice(e.deleteOnTermination, e.encrypted, e.iops, e.kmsKeyId, e.snapshotId,
                                       e.throughput, match e.volumeSizeGiB case None => None case Some(n) => Some(Quantity(n, Gibi)),
                                       e.volumeType)))
  }

  /**
    Planning is idempotent: feeding a plan back in as explicit Gi mappings
    reproduces it exactly, so a second pass never grows a volume again.
   */
  lemma {:induction false} PlanIdempotent(mappings: seq<BlockDeviceMapping>, family: AmiFamily)
    ensures var rs := Plan(mappings, family);
            Plan(seq(|rs|, i requires 0 <= i < |rs| => Unplan(rs[i])), family) == rs
  {
    var rs := Plan(mappings, family);
    var back := seq(|rs|, i requires 0 <= i < |rs| => Unplan(rs[i]));
    var again := Plan(back, family);
    if |rs| > 0 {
      forall i | 0 <= i < |rs|
        ensures again[i] == rs[i]
      {
        match rs[i].ebs {
          case None =>
          case Some(e) =>
            if e.volumeSizeGiB.Some? {
              GibiSizeKept(e.volumeSizeGiB.value);
            }
        }
      }
    }
  }
}
