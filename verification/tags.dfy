/**
  Tags put on everything a launch creates. Four sources are merged, a later
  one winning on a shared key: the overridable default
  `Name=karpenter.sh/provisioner-name/<provisioner>`, the global settings
  tags, the node class's tags, and finally the tags the controller owns
  (`kubernetes.io/cluster/<cluster>=owned`,
  `karpenter.sh/provisioner-name=<provisioner>` and
  `karpenter.sh/managed-by=<cluster>`), which nothing overrides. The merged
  map goes into the instance, volume and fleet tag specifications of the
  fleet request (see `LaunchTemplates.Provision`).
 */
module TagMerge {
  import opened Wrappers
  import opened Apis
  import Validation

  const NameKey: string := "Name"
  /** Left-to-right merge: each source overrides the keys it shares with earlier ones. */
  function MergeAll(sources: seq<TagMap>): TagMap
    decreases |sources|
  {
    if |sources| == 0 then map[] else MergeAll(sources[..|sources| - 1]) + sources[|sources| - 1]
  }

  /** A key is merged exactly when some source has it. */
  lemma {:induction false} MergeAllKeys(sources: seq<TagMap>, k: string)
    ensures k in MergeAll(sources) <==> exists i :: 0 <= i < |sources| && k in sources[i]
    decreases |sources|
  {
    if |sources| > 0 {
      var init := sources[..|sources| - 1];
      MergeAllKeys(init, k);
      if exists i :: 0 <= i < |init| && k in init[i] {
        var i :| 0 <= i < |init| && k in init[i];
        assert sources[i] == init[i];
      }
      if exists i :: 0 <= i < |sources| && k in sources[i] {
        var i :| 0 <= i < |sources| && k in sources[i];
        if i < |init| {
          assert init[i] == sources[i];
        }
      }
    }
  }

  /** The merged value of a key is the one from the last source that has it. */
  lemma {:induction false} MergeAllLastWins(sources: seq<TagMap>, k: string, i: nat)
    requires i < |sources| && k in sources[i]
    requires forall j :: i < j < |sources| ==> k !in sources[j]
    ensures k in MergeAll(sources) && MergeAll(sources)[k] == sources[i][k]
    decreases |sources|
  {
    var init := sources[..|sources| - 1];
    if i < |sources| - 1 {
      assert init[i] == sources[i];
      forall j | i < j < |init|
        ensures k !in init[j]
      {
        assert init[j] == sources[j];
      }
      MergeAllLastWins(init, k, i);
    }
  }

  /** The default a user may override: the instance's display name. */
  function OverridableTags(provisionerName: string): TagMap {
    map[NameKey := ProvisionerNameTagKey + "/" + provisionerName]
  }

  /** The tags the controller owns: cluster ownership, the provisioner, and the managing cluster. */
  function StaticTags(clusterName: string, provisionerName: string): TagMap {
    map[ClusterTagPrefix + clusterName := "owned", ProvisionerNameTagKey := provisionerName, ManagedByTagKey := clusterName]
  }

  /**
    The overridable default, then global settings tags, then the node class's
    tags, then the controller's own tags.
   */
  function LaunchTags(clusterName: string, provisionerName: string, settingsTags: TagMap, nodeClassTags: TagMap): (r: TagMap)
    ensures r.Keys == OverridableTags(provisionerName).Keys + settingsTags.Keys + nodeClassTags.Keys
                      + StaticTags(clusterName, provisionerName).Keys
    ensures forall k :: k in StaticTags(clusterName, provisionerName) ==> r[k] == StaticTags(clusterName, provisionerName)[k]
    ensures forall k :: k in nodeClassTags && k !in StaticTags(clusterName, provisionerName) ==> r[k] == nodeClassTags[k]
    ensures forall k :: k in settingsTags && k !in nodeClassTags && k !in StaticTags(clusterName, provisionerName) ==>
              r[k] == settingsTags[k]
    ensures forall k ::
              (k in OverridableTags(provisionerName) && k !in settingsTags && k !in nodeClassTags
               && k !in StaticTags(clusterName, provisionerName)) ==> r[k] == OverridableTags(provisionerName)[k]
  {
    var owned := StaticTags(clusterName, provisionerName);
    var sources := [OverridableTags(provisionerName), settingsTags, nodeClassTags, owned];
    forall k ensures k in MergeAll(sources) <==> k in sources[0] || k in sources[1] || k in sources[2] || k in sources[3] {
      MergeAllKeys(sources, k);
    }
    forall k | k in owned ensures MergeAll(sources)[k] == owned[k] {
      MergeAllLastWins(sources, k, 3);
    }
    forall k | k in nodeClassTags && k !in owned ensures MergeAll(sources)[k] == nodeClassTags[k] {
      MergeAllLastWins(sources, k, 2);
    }
    forall k | k in settingsTags && k !in nodeClassTags && k !in owned ensures MergeAll(sources)[k] == settingsTags[k] {
      MergeAllLastWins(sources, k, 1);
    }
    forall k | k in sources[0] && k !in settingsTags && k !in nodeClassTags && k !in owned
      ensures MergeAll(sources)[k] == sources[0][k]
    {
      MergeAllLastWins(sources, k, 0);
    }
    MergeAll(sources)
  }

  datatype ResourceType = Instance | Volume | Fleet

  datatype TagSpecification = TagSpecification(resourceType: ResourceType, tags: TagMap)

  /** The same tags on the instance, its volumes and the fleet, in that order. */
  function TagSpecifications(tags: TagMap): (specs: seq<TagSpecification>)
    ensures |specs| == 3
    ensures specs[0].resourceType == Instance && specs[1].resourceType == Volume && specs[2].resourceType == Fleet
    ensures forall i :: 0 <= i < |specs| ==> specs[i].tags == tags
  {
    [TagSpecification(Instance, tags), TagSpecification(Volume, tags), TagSpecification(Fleet, tags)]
  }

  /**
    Whatever the settings and the node class say, the launched resources carry
    the controller's own tags with the controller's values.
   */
  lemma ControllerTagsKept(clusterName: string, provisionerName: string, settingsTags: TagMap, nodeClassTags: TagMap)
    ensures var t := LaunchTags(clusterName, provisionerName, settingsTags, nodeClassTags);
            && t[ProvisionerNameTagKey] == provisionerName
            && t[ManagedByTagKey] == clusterName
            && t[ClusterTagPrefix + clusterName] == "owned"
  {
    var owned := StaticTags(clusterName, provisionerName);
    assert ProvisionerNameTagKey in owned && ManagedByTagKey in owned && ClusterTagPrefix + clusterName in owned;
    assert owned[ProvisionerNameTagKey] == provisionerName && owned[ManagedByTagKey] == clusterName;
    assert ClusterTagPrefix + clusterName != ProvisionerNameTagKey && ClusterTagPrefix + clusterName != ManagedByTagKey by {
      assert (ClusterTagPrefix + clusterName)[0] == 'k' && ProvisionerNameTagKey[7] == 'e' && ManagedByTagKey[7] == 'e';
      assert (ClusterTagPrefix + clusterName)[7] == 't';
    }
    assert owned[ClusterTagPrefix + clusterName] == "owned";
  }

  /** A cluster name the cluster-tag rule recognises: a letter or digit, then letters, digits, '-' or '_'. */
  predicate IsClusterName(clusterName: string) {
    && |clusterName| > 0
    && Validation.IsAlphaNumeric(clusterName[0])
    && forall i :: 0 < i < |clusterName| ==> Validation.IsClusterNameChar(clusterName[i])
  }

  /** Every key the controller owns is one node-class validation rejects. */
  lemma StaticKeysRestricted(clusterName: string, provisionerName: string)
    requires IsClusterName(clusterName)
    ensures forall k :: k in StaticTags(clusterName, provisionerName) ==> Validation.IsRestrictedTagKey(k)
  {
    var k := ClusterTagPrefix + clusterName;
    assert k[..|ClusterTagPrefix|] == ClusterTagPrefix;
    assert k[|ClusterTagPrefix|] == clusterName[0];
    forall i | |ClusterTagPrefix| < i < |k| ensures Validation.IsClusterNameChar(k[i]) {
      assert k[i] == clusterName[i - |ClusterTagPrefix|];
    }
    assert Validation.IsRestrictedTagKey(k);
  }

  /**
    A node class that passes tag validation never collides with the
    controller's tags, so every one of its tags reaches the launched resources
    with its own value.
   */
  lemma ValidNodeClassTagsKept(clusterName: string, provisionerName: string, settingsTags: TagMap, nodeClassTags: TagMap)
    requires IsClusterName(clusterName)
    requires Validation.TagErrors(nodeClassTags) == {}
    ensures var t := LaunchTags(clusterName, provisionerName, settingsTags, nodeClassTags);
            forall k :: k in nodeClassTags ==> k in t && t[k] == nodeClassTags[k]
  {
    StaticKeysRestricted(clusterName, provisionerName);
    forall k | k in nodeClassTags ensures !Validation.IsRestrictedTagKey(k) {
      assert Validation.FieldError(Validation.Tags, None, Validation.RestrictedTagKey(k)) !in Validation.TagErrors(nodeClassTags);
    }
  }

  /** Without other tags, the launch carries the provisioner name and the default Name. */
  lemma DefaultTagsScenario(clusterName: string)
    ensures var t := LaunchTags(clusterName, "the-provisioner", map[], map[]);
            t[ProvisionerNameTagKey] == "the-provisioner" && t[NameKey] == "karpenter.sh/provisioner-name/the-provisioner"
  {
    ControllerTagsKept(clusterName, "the-provisioner", map[], map[]);
    NotStatic(clusterName, "the-provisioner", NameKey);
  }

  /** Global settings tags and node-class tags with distinct keys both reach the launch. */
  lemma SettingsTagsMergedScenario(clusterName: string)
    ensures var t := LaunchTags(clusterName, "p", map["customTag1" := "value1", "customTag2" := "value2"],
                                map["tag1" := "tag1value", "tag2" := "tag2value"]);
            t["customTag1"] == "value1" && t["customTag2"] == "value2" && t["tag1"] == "tag1value" && t["tag2"] == "tag2value"
  {
    NotStatic(clusterName, "p", "customTag1");
    NotStatic(clusterName, "p", "customTag2");
    NotStatic(clusterName, "p", "tag1");
    NotStatic(clusterName, "p", "tag2");
  }

  /** A node-class Name tag overrides the default Name. */
  lemma NameOverrideScenario(clusterName: string)
    ensures LaunchTags(clusterName, "p", map[], map[NameKey := "myname"])[NameKey] == "myname"
  {
    NotStatic(clusterName, "p", NameKey);
  }

  /** Node-class tags override settings tags on the same keys. */
  lemma NodeClassOverridesSettingsScenario(clusterName: string)
    ensures var t := LaunchTags(clusterName, "p", map["tag1" := "custom1", "tag2" := "custom2"],
                                map["tag1" := "tag1value", "tag2" := "tag2value"]);
            t["tag1"] == "tag1value" && t["tag2"] == "tag2value"
  {
    NotStatic(clusterName, "p", "tag1");
    NotStatic(clusterName, "p", "tag2");
  }

  /** A key shorter than both owned keys and without the cluster prefix is not the controller's. */
  lemma NotStatic(clusterName: string, provisionerName: string, k: string)
    requires |k| < |ClusterTagPrefix| && |k| < |ManagedByTagKey|
    ensures k !in StaticTags(clusterName, provisionerName)
  {
  }
}
