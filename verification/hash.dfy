/**
  The node-class drift hash. It covers only the fields that state operator
  intent (family, user data, role and profile, tags, block devices, detailed
  monitoring, metadata options, context) and leaves out the three selector-term
  lists, whose effect is observed through resolution instead. Tags are a map and
  block devices are hashed as a multiset, so neither tag order nor mapping
  order can move the hash. The hash itself is an abstract injective function of
  this static projection: two node classes hash alike exactly when their static
  projections are equal.
 */
module NodeClassHash {
  import opened Wrappers
  import opened Apis

  datatype StaticFields = StaticFields(
    amiFamily: Option<AmiFamily>,
    userData: Option<string>,
    role: Option<string>,
    instanceProfile: Option<string>,
    tags: TagMap,
    blockDeviceMappings: multiset<BlockDeviceMapping>,
    detailedMonitoring: Option<bool>,
    metadataOptions: Option<MetadataOptions>,
    context: Option<string>)

  /** The part of a spec the hash sees. */
  function StaticProjection(spec: NodeClassSpec): StaticFields {
    StaticFields(spec.amiFamily, spec.userData, spec.role, spec.instanceProfile, spec.tags,
                 multiset(spec.blockDeviceMappings), spec.detailedMonitoring, spec.metadataOptions, spec.context)
  }

  /** An injective image of the static projection. */
  datatype Fingerprint = Fingerprint(fields: StaticFields)

  function Hash(spec: NodeClassSpec): Fingerprint {
    Fingerprint(StaticProjection(spec))
  }

  /** Two specs hash alike exactly when every static field agrees, block devices up to order. */
  lemma HashEqualIff(a: NodeClassSpec, b: NodeClassSpec)
    ensures Hash(a) == Hash(b) <==>
            (&& a.amiFamily == b.amiFamily
             && a.userData == b.userData
             && a.role == b.role
             && a.instanceProfile == b.instanceProfile
             && a.tags == b.tags
             && multiset(a.blockDeviceMappings) == multiset(b.blockDeviceMappings)
             && a.detailedMonitoring == b.detailedMonitoring
             && a.metadataOptions == b.metadataOptions
             && a.context == b.context)
  {
  }

  /** Replacing any of the selector-term lists leaves the hash unchanged. */
  lemma HashIgnoresSelectorTerms(spec: NodeClassSpec, subnets: seq<SubnetSelectorTerm>,
                                 groups: seq<SecurityGroupSelectorTerm>, amis: seq<AmiSelectorTerm>)
    ensures Hash(spec.(subnetSelectorTerms := subnets, securityGroupSelectorTerms := groups,
                       amiSelectorTerms := amis)) == Hash(spec)
  {
  }

  /** Reordering the block-device mappings leaves the hash unchanged. */
  lemma HashIgnoresMappingOrder(spec: NodeClassSpec, reordered: seq<BlockDeviceMapping>)
    requires multiset(reordered) == multiset(spec.blockDeviceMappings)
    ensures Hash(spec.(blockDeviceMappings := reordered)) == Hash(spec)
  {
  }

  /** Changing any single static field changes the hash. */
  lemma HashSeesStaticFields(spec: NodeClassSpec, family: Option<AmiFamily>, userData: Option<string>,
                             role: Option<string>, profile: Option<string>, tags: TagMap, mappings: seq<BlockDeviceMapping>,
                             monitoring: Option<bool>, options: Option<MetadataOptions>, context: Option<string>)
    ensures family != spec.amiFamily ==> Hash(spec.(amiFamily := family)) != Hash(spec)
    ensures userData != spec.userData ==> Hash(spec.(userData := userData)) != Hash(spec)
    ensures role != spec.role ==> Hash(spec.(role := role)) != Hash(spec)
    ensures profile != spec.instanceProfile ==> Hash(spec.(instanceProfile := profile)) != Hash(spec)
    ensures tags != spec.tags ==> Hash(spec.(tags := tags)) != Hash(spec)
    ensures multiset(mappings) != multiset(spec.blockDeviceMappings) ==>
            Hash(spec.(blockDeviceMappings := mappings)) != Hash(spec)
    ensures monitoring != spec.detailedMonitoring ==> Hash(spec.(detailedMonitoring := monitoring)) != Hash(spec)
    ensures options != spec.metadataOptions ==> Hash(spec.(metadataOptions := options)) != Hash(spec)
    ensures context != spec.context ==> Hash(spec.(context := context)) != Hash(spec)
  {
    HashEqualIff(spec, spec.(blockDeviceMappings := mappings));
  }

  /** The base node class of the hash tests, and each drift entry measured against it. */
  function HashTestBase(): NodeClassSpec {
    NodeClassSpec(
      [], [], [], Some(AL2), Some("userdata-test-1"), Some("role-1"), None,
      map["keyTag-1" := "valueTag-1", "keyTag-2" := "valueTag-2"],
      [BlockDeviceMapping(Some("map-device-1"), None), BlockDeviceMapping(Some("map-device-2"), None)],
      Some(false), Some(MetadataOptions(Some("test-metadata-1"), None, None, None)), Some("context-1"))
  }

  /** A spec that sets only the given field, as each drift entry of the hash tests does. */
  function OnlyField(tags: TagMap, mappings: seq<BlockDeviceMapping>): NodeClassSpec {
    NodeClassSpec([], [], [], None, None, None, None, tags, mappings, None, None, None)
  }

  lemma HashTestEntries()
    ensures Hash(OnlyField(map[], []).(role := Some("role-2"))) != Hash(HashTestBase())
    ensures Hash(OnlyField(map[], []).(userData := Some("userdata-test-2"))) != Hash(HashTestBase())
    ensures Hash(OnlyField(map["keyTag-test-3" := "valueTag-test-3"], [])) != Hash(HashTestBase())
    ensures Hash(OnlyField(map[], []).(metadataOptions := Some(MetadataOptions(Some("test-metadata-2"), None, None, None))))
            != Hash(HashTestBase())
    ensures Hash(OnlyField(map[], [BlockDeviceMapping(Some("map-device-test-3"), None)])) != Hash(HashTestBase())
    ensures Hash(OnlyField(map[], []).(context := Some("context-2"))) != Hash(HashTestBase())
    ensures Hash(OnlyField(map[], []).(detailedMonitoring := Some(true))) != Hash(HashTestBase())
    ensures Hash(OnlyField(map[], []).(amiFamily := Some(Bottlerocket))) != Hash(HashTestBase())
    ensures Hash(OnlyField(map["keyTag-2" := "valueTag-2", "keyTag-1" := "valueTag-1"], [])) != Hash(HashTestBase())
    ensures Hash(OnlyField(map[], [BlockDeviceMapping(Some("map-device-2"), None),
                                   BlockDeviceMapping(Some("map-device-1"), None)])) != Hash(HashTestBase())
    ensures Hash(HashTestBase().(amiSelectorTerms := [AmiSelectorTerm(map["ami-test-key" := "ami-test-value"], "", "", "", "")]))
            == Hash(HashTestBase())
  {
    HashIgnoresSelectorTerms(HashTestBase(), [], [], [AmiSelectorTerm(map["ami-test-key" := "ami-test-value"], "", "", "", "")]);
  }
}
