/**
  AMI candidate selection. Each discovered image carries a requirement set:
  its architecture as a Kubernetes architecture label, plus every tag whose key
  is a well-known node label (an image tagged with an instance type may only
  boot that instance type). Every offered instance type is assigned to the
  newest image it can boot (the first one listed on a tie); an image that
  serves at least one instance type gets its own launch template together with
  the instance types assigned to it. No assignment at all is a failure.
 */
module AmiSelection {
  import opened Wrappers
  import opened Apis

  type Requirements = map<string, string>

  const ArchLabel: string := "kubernetes.io/arch"
  const InstanceTypeLabel: string := "node.kubernetes.io/instance-type"
  const OsLabel: string := "kubernetes.io/os"
  const ZoneLabel: string := "topology.kubernetes.io/zone"
  const CapacityTypeLabel: string := "karpenter.sh/capacity-type"

  /** The node labels an image tag may constrain. */
  const WellKnownLabels: set<string> := {ArchLabel, InstanceTypeLabel, OsLabel, ZoneLabel, CapacityTypeLabel}

  /** The cloud's architecture names as Kubernetes names; anything unknown maps to no architecture at all. */
  function KubeArchitecture(architecture: string): string {
    if architecture == "x86_64" then "amd64"
    else if architecture == "arm64" then "arm64"
    else ""
  }

  /** A discovered image; the creation date is its timestamp, ordered as time. */
  datatype Image = Image(id: string, architecture: string, creationDate: nat, tags: TagMap)

  /** What an instance type must offer to boot the image. */
  function ImageRequirements(image: Image): (r: Requirements)
    ensures ArchLabel in r && r[ArchLabel] == KubeArchitecture(image.architecture)
    ensures forall k :: k in r <==> k == ArchLabel || (k in image.tags && k in WellKnownLabels)
    ensures forall k :: k in r && k != ArchLabel ==> r[k] == image.tags[k]
  {
    (map k | k in image.tags && k in WellKnownLabels :: image.tags[k])[ArchLabel := KubeArchitecture(image.architecture)]
  }

  /**
    A candidate instance type, described by the values each node label can
    take on it: one architecture and one instance-type name, but possibly
    several zones and capacity types.
   */
  datatype InstanceType = InstanceType(name: string, labels: map<string, set<string>>)

  /** The instance type offers every required label with the required value among its values. */
  predicate Compatible(it: InstanceType, requirements: Requirements) {
    forall k :: k in requirements ==> k in it.labels && requirements[k] in it.labels[k]
  }

  /** An image as selection sees it: identity, age and requirement set. */
  datatype Candidate = Candidate(id: string, creationDate: nat, requirements: Requirements)

  function ToCandidate(image: Image): Candidate {
    Candidate(image.id, image.creationDate, ImageRequirements(image))
  }

  /**
    Candidate `i` is the image instance type `it` is launched with: `it` can
    boot it, no bootable candidate is newer, and every bootable candidate
    listed before it is strictly older.
   */
  predicate Serves(cs: seq<Candidate>, it: InstanceType, i: nat) {
    && i < |cs|
    && Compatible(it, cs[i].requirements)
    && (forall j :: 0 <= j < |cs| && Compatible(it, cs[j].requirements) ==> cs[j].creationDate <= cs[i].creationDate)
    && (forall j :: 0 <= j < i && Compatible(it, cs[j].requirements) ==> cs[j].creationDate < cs[i].creationDate)
  }

  /**
    The newest of the first `k` candidates that `it` can boot, the earliest
    listed on a tie; None when it can boot none of them.
   */
  function NewestCompatible(cs: seq<Candidate>, it: InstanceType, k: nat): (w: Option<nat>)
    requires k <= |cs|
    ensures w.None? <==> forall j :: 0 <= j < k ==> !Compatible(it, cs[j].requirements)
    ensures w.Some? ==> w.value < k && Compatible(it, cs[w.value].requirements)
    ensures w.Some? ==>
              forall j :: 0 <= j < k && Compatible(it, cs[j].requirements) ==> cs[j].creationDate <= cs[w.value].creationDate
    ensures w.Some? ==>
              forall j :: 0 <= j < w.value && Compatible(it, cs[j].requirements) ==> cs[j].creationDate < cs[w.value].creationDate
  {
    if k == 0 then None
    else
      match NewestCompatible(cs, it, k - 1)
      case None => if Compatible(it, cs[k - 1].requirements) then Some(k - 1) else None
      case Some(w) =>
        if Compatible(it, cs[k - 1].requirements) && cs[k - 1].creationDate > cs[w].creationDate
        then Some(k - 1) else Some(w)
  }

  /** The search finds exactly the candidate that serves the instance type, and at most one candidate does. */
  lemma NewestCompatibleServes(cs: seq<Candidate>, it: InstanceType, i: nat)
    requires i < |cs|
    ensures NewestCompatible(cs, it, |cs|) == Some(i) <==> Serves(cs, it, i)
  {
    var w := NewestCompatible(cs, it, |cs|);
    if Serves(cs, it, i) {
      assert w.Some?;
    }
  }

  /** The instance types among `its` that are launched with candidate `i`, in order. */
  function ServedTypes(cs: seq<Candidate>, its: seq<InstanceType>, i: nat): (r: seq<InstanceType>)
    ensures forall it :: it in r <==> it in its && NewestCompatible(cs, it, |cs|) == Some(i)
  {
    if |its| == 0 then []
    else (if NewestCompatible(cs, its[0], |cs|) == Some(i) then [its[0]] else []) + ServedTypes(cs, its[1..], i)
  }

  /** One launch template's worth: a candidate image and the instance types it serves. */
  datatype AmiGroup = AmiGroup(candidate: Candidate, instanceTypes: seq<InstanceType>)

  /** Candidate `i` serves at least one instance type. */
  predicate Chosen(cs: seq<Candidate>, its: seq<InstanceType>, i: nat)
    requires i < |cs|
  {
    |ServedTypes(cs, its, i)| > 0
  }

  function GroupOf(cs: seq<Candidate>, its: seq<InstanceType>, i: nat): AmiGroup
    requires i < |cs|
  {
    AmiGroup(cs[i], ServedTypes(cs, its, i))
  }

  function SelectPrefix(cs: seq<Candidate>, its: seq<InstanceType>, k: nat): (groups: seq<AmiGroup>)
    requires k <= |cs|
    ensures forall g :: g in groups <==> exists i :: 0 <= i < k && Chosen(cs, its, i) && g == GroupOf(cs, its, i)
  {
    if k == 0 then []
    else SelectPrefix(cs, its, k - 1) + (if Chosen(cs, its, k - 1) then [GroupOf(cs, its, k - 1)] else [])
  }

  /** The launch-template groups for the discovered candidates, in discovery order. */
  function Select(cs: seq<Candidate>, its: seq<InstanceType>): (groups: seq<AmiGroup>)
    ensures forall g :: g in groups <==> exists i :: 0 <= i < |cs| && Chosen(cs, its, i) && g == GroupOf(cs, its, i)
  {
    SelectPrefix(cs, its, |cs|)
  }

  /**
    Every group is a discovered image with at least one instance type, and its
    instance types are exactly the offered ones that this image serves.
   */
  lemma {:induction false} SelectGroupsServe(cs: seq<Candidate>, its: seq<InstanceType>, g: AmiGroup)
    requires g in Select(cs, its)
    ensures exists i :: && 0 <= i < |cs| && g.candidate == cs[i] && |g.instanceTypes| > 0
                        && forall it :: it in g.instanceTypes <==> it in its && Serves(cs, it, i)
  {
    var i :| 0 <= i < |cs| && Chosen(cs, its, i) && g == GroupOf(cs, its, i);
    forall it ensures it in g.instanceTypes <==> it in its && Serves(cs, it, i) {
      NewestCompatibleServes(cs, it, i);
    }
  }

  /** An instance type is never launched with an image when a newer image it can boot was discovered. */
  lemma SelectedTypeHasNoNewerImage(cs: seq<Candidate>, its: seq<InstanceType>, g: AmiGroup, it: InstanceType, j: nat)
    requires g in Select(cs, its) && it in g.instanceTypes
    requires j < |cs| && Compatible(it, cs[j].requirements)
    ensures cs[j].creationDate <= g.candidate.creationDate
  {
    SelectGroupsServe(cs, its, g);
  }

  /** Every offered instance type that can boot some discovered image is in some group. */
  lemma SelectCoversBootableTypes(cs: seq<Candidate>, its: seq<InstanceType>, it: InstanceType, j: nat)
    requires it in its && j < |cs| && Compatible(it, cs[j].requirements)
    ensures exists g :: g in Select(cs, its) && it in g.instanceTypes
  {
    var w := NewestCompatible(cs, it, |cs|).value;
    assert it in ServedTypes(cs, its, w);
    assert GroupOf(cs, its, w) in Select(cs, its);
  }

  /** No instance type is in two groups: each is launched with one image only. */
  lemma SelectAssignsEachTypeOnce(cs: seq<Candidate>, its: seq<InstanceType>, g1: AmiGroup, g2: AmiGroup, it: InstanceType)
    requires g1 in Select(cs, its) && g2 in Select(cs, its)
    requires it in g1.instanceTypes && it in g2.instanceTypes
    ensures g1 == g2
  {
    var i1 :| 0 <= i1 < |cs| && Chosen(cs, its, i1) && g1 == GroupOf(cs, its, i1);
    var i2 :| 0 <= i2 < |cs| && Chosen(cs, its, i2) && g2 == GroupOf(cs, its, i2);
    assert NewestCompatible(cs, it, |cs|) == Some(i1) && NewestCompatible(cs, it, |cs|) == Some(i2);
  }

  /**
    A candidate is never selected when a strictly newer candidate is no more
    restrictive (an identical requirement set included): every instance type
    it could serve goes to the newer one.
   */
  lemma {:induction false} OlderCandidateNeverSelected(cs: seq<Candidate>, its: seq<InstanceType>, i: nat, j: nat)
    requires i < |cs| && j < |cs|
    requires forall k :: k in cs[j].requirements ==> k in cs[i].requirements && cs[i].requirements[k] == cs[j].requirements[k]
    requires cs[j].creationDate > cs[i].creationDate
    ensures forall g :: g in Select(cs, its) ==> g.candidate != cs[i]
  {
    forall g | g in Select(cs, its)
      ensures g.candidate != cs[i]
    {
      var k :| 0 <= k < |cs| && Chosen(cs, its, k) && g == GroupOf(cs, its, k);
      var it := g.instanceTypes[0];
      assert it in ServedTypes(cs, its, k);
      if g.candidate == cs[i] {
        assert Compatible(it, cs[j].requirements);
      }
    }
  }

  /**
    Selection fails (yields nothing) exactly when no discovered candidate can
    boot any instance type.
   */
  lemma {:induction false} SelectEmptyIff(cs: seq<Candidate>, its: seq<InstanceType>)
    ensures |Select(cs, its)| == 0 <==>
            forall i, it :: 0 <= i < |cs| && it in its ==> !Compatible(it, cs[i].requirements)
  {
    if exists i, it :: 0 <= i < |cs| && it in its && Compatible(it, cs[i].requirements) {
      var i, it :| 0 <= i < |cs| && it in its && Compatible(it, cs[i].requirements);
      SelectCoversBootableTypes(cs, its, it, i);
    } else if |Select(cs, its)| > 0 {
      var g := Select(cs, its)[0];
      assert g in Select(cs, its);
      var k :| 0 <= k < |cs| && Chosen(cs, its, k) && g == GroupOf(cs, its, k);
      assert g.instanceTypes[0] in ServedTypes(cs, its, k);
    }
  }

  /** Instance types of the selection tests: two amd64 m5 sizes, offered in three zones as spot and on-demand. */
  const TestZones: set<string> := {"test-zone-1a", "test-zone-1b", "test-zone-1c"}
  const M5Large: InstanceType :=
    InstanceType("m5.large", map[ArchLabel := {"amd64"}, InstanceTypeLabel := {"m5.large"}, ZoneLabel := TestZones,
                                 CapacityTypeLabel := {"spot", "on-demand"}])
  const M5XLarge: InstanceType :=
    InstanceType("m5.xlarge", map[ArchLabel := {"amd64"}, InstanceTypeLabel := {"m5.xlarge"}, ZoneLabel := TestZones,
                                  CapacityTypeLabel := {"spot", "on-demand"}])

  /** Over one instance type, it is served exactly when this candidate is its newest compatible one. */
  lemma ServedTypesSingle(cs: seq<Candidate>, b: InstanceType, i: nat)
    ensures ServedTypes(cs, [b], i) == if NewestCompatible(cs, b, |cs|) == Some(i) then [b] else []
  {
    assert [b][1..] == [];
  }

  /** Over two instance types, the served ones in order. */
  lemma ServedTypesPair(cs: seq<Candidate>, a: InstanceType, b: InstanceType, i: nat)
    ensures ServedTypes(cs, [a, b], i) ==
            (if NewestCompatible(cs, a, |cs|) == Some(i) then [a] else []) +
            (if NewestCompatible(cs, b, |cs|) == Some(i) then [b] else [])
  {
    assert [a, b][1..] == [b];
    ServedTypesSingle(cs, b, i);
  }

  /** An untagged image requires only its architecture. */
  lemma UntaggedRequirements(id: string, architecture: string, date: nat)
    ensures ToCandidate(Image(id, architecture, date, map[])).requirements == map[ArchLabel := KubeArchitecture(architecture)]
  {
  }

  /** An image tagged with an instance type requires that instance type and its architecture. */
  lemma InstanceTypeTaggedRequirements(id: string, architecture: string, date: nat, instanceType: string)
    ensures ToCandidate(Image(id, architecture, date, map[InstanceTypeLabel := instanceType])).requirements
            == map[InstanceTypeLabel := instanceType, ArchLabel := KubeArchitecture(architecture)]
  {
    var r := ToCandidate(Image(id, architecture, date, map[InstanceTypeLabel := instanceType])).requirements;
    assert InstanceTypeLabel in r;
  }

  /**
    The newest compatible image wins even when an incompatible one is newer:
    of two x86_64 images from 2020 and 2021 and an arm64 image from 2022, amd64
    instance types get the 2021 image alone.
   */
  lemma NewestCompatibleScenario()
    ensures var cs := [ToCandidate(Image("ami-123", "x86_64", 20200101, map[])),
                       ToCandidate(Image("ami-456", "x86_64", 20210101, map[])),
                       ToCandidate(Image("ami-789", "arm64", 20220101, map[]))];
            Select(cs, [M5Large, M5XLarge]) == [AmiGroup(cs[1], [M5Large, M5XLarge])]
  {
    UntaggedRequirements("ami-123", "x86_64", 20200101);
    UntaggedRequirements("ami-456", "x86_64", 20210101);
    UntaggedRequirements("ami-789", "arm64", 20220101);
    var amd, arm := map[ArchLabel := "amd64"], map[ArchLabel := "arm64"];
    NewestCompatibleSelect([Candidate("ami-123", 20200101, amd), Candidate("ami-456", 20210101, amd),
                            Candidate("ami-789", 20220101, arm)]);
  }

  /** Both m5 sizes boot exactly the amd64 candidates, so the newer amd64 one serves them. */
  lemma NewestCompatibleOwners(cs: seq<Candidate>)
    requires |cs| == 3
    requires cs[0].requirements == cs[1].requirements == map[ArchLabel := "amd64"]
    requires cs[2].requirements == map[ArchLabel := "arm64"]
    requires cs[0].creationDate < cs[1].creationDate
    ensures NewestCompatible(cs, M5Large, |cs|) == Some(1)
    ensures NewestCompatible(cs, M5XLarge, |cs|) == Some(1)
  {
    assert !Compatible(M5Large, cs[2].requirements) by { assert "arm64" !in M5Large.labels[ArchLabel]; }
    assert !Compatible(M5XLarge, cs[2].requirements) by { assert "arm64" !in M5XLarge.labels[ArchLabel]; }
    assert Compatible(M5Large, cs[1].requirements) && Compatible(M5Large, cs[0].requirements);
    assert Compatible(M5XLarge, cs[1].requirements) && Compatible(M5XLarge, cs[0].requirements);
    NewestCompatibleServes(cs, M5Large, 1);
    NewestCompatibleServes(cs, M5XLarge, 1);
  }

  lemma NewestCompatibleSelect(cs: seq<Candidate>)
    requires |cs| == 3
    requires cs[0].requirements == cs[1].requirements == map[ArchLabel := "amd64"]
    requires cs[2].requirements == map[ArchLabel := "arm64"]
    requires cs[0].creationDate < cs[1].creationDate
    ensures Select(cs, [M5Large, M5XLarge]) == [AmiGroup(cs[1], [M5Large, M5XLarge])]
  {
    var its := [M5Large, M5XLarge];
    NewestCompatibleOwners(cs);
    ServedTypesPair(cs, M5Large, M5XLarge, 0);
    ServedTypesPair(cs, M5Large, M5XLarge, 1);
    ServedTypesPair(cs, M5Large, M5XLarge, 2);
    assert !Chosen(cs, its, 0) && Chosen(cs, its, 1) && !Chosen(cs, its, 2);
    assert SelectPrefix(cs, its, 1) == [];
    assert ServedTypes(cs, its, 1) == [M5Large] + [M5XLarge] == its;
    assert SelectPrefix(cs, its, 2) == [AmiGroup(cs[1], its)];
  }

  /**
    Images restricted to different instance types each serve their own
    instance type, so the older one is used as well.
   */
  lemma DistinctRequirementsScenario()
    ensures var cs := [ToCandidate(Image("ami-123", "x86_64", 20220815, map[InstanceTypeLabel := "m5.large"])),
                       ToCandidate(Image("ami-456", "x86_64", 20220810, map[InstanceTypeLabel := "m5.xlarge"]))];
            Select(cs, [M5Large, M5XLarge]) == [AmiGroup(cs[0], [M5Large]), AmiGroup(cs[1], [M5XLarge])]
  {
    InstanceTypeTaggedRequirements("ami-123", "x86_64", 20220815, "m5.large");
    InstanceTypeTaggedRequirements("ami-456", "x86_64", 20220810, "m5.xlarge");
    DistinctRequirementsSelect([Candidate("ami-123", 20220815, map[InstanceTypeLabel := "m5.large", ArchLabel := "amd64"]),
                                Candidate("ami-456", 20220810, map[InstanceTypeLabel := "m5.xlarge", ArchLabel := "amd64"])]);
  }

  /** An image tagged with one of the two test instance types is compatible with that type only. */
  lemma InstanceTypeTagCompatible()
    ensures var large := map[InstanceTypeLabel := "m5.large", ArchLabel := "amd64"];
            var xlarge := map[InstanceTypeLabel := "m5.xlarge", ArchLabel := "amd64"];
            && Compatible(M5Large, large) && !Compatible(M5Large, xlarge)
            && !Compatible(M5XLarge, large) && Compatible(M5XLarge, xlarge)
  {
    assert "m5.xlarge" !in M5Large.labels[InstanceTypeLabel];
    assert "m5.large" !in M5XLarge.labels[InstanceTypeLabel];
  }

  /** m5.large boots only the image tagged m5.large, m5.xlarge only the one tagged m5.xlarge. */
  lemma DistinctRequirementsOwners(cs: seq<Candidate>)
    requires |cs| == 2
    requires cs[0].requirements == map[InstanceTypeLabel := "m5.large", ArchLabel := "amd64"]
    requires cs[1].requirements == map[InstanceTypeLabel := "m5.xlarge", ArchLabel := "amd64"]
    ensures NewestCompatible(cs, M5Large, |cs|) == Some(0)
    ensures NewestCompatible(cs, M5XLarge, |cs|) == Some(1)
  {
    InstanceTypeTagCompatible();
    NewestCompatibleServes(cs, M5Large, 0);
    NewestCompatibleServes(cs, M5XLarge, 1);
  }

  lemma DistinctRequirementsSelect(cs: seq<Candidate>)
    requires |cs| == 2
    requires cs[0].requirements == map[InstanceTypeLabel := "m5.large", ArchLabel := "amd64"]
    requires cs[1].requirements == map[InstanceTypeLabel := "m5.xlarge", ArchLabel := "amd64"]
    ensures Select(cs, [M5Large, M5XLarge]) == [AmiGroup(cs[0], [M5Large]), AmiGroup(cs[1], [M5XLarge])]
  {
    var its := [M5Large, M5XLarge];
    DistinctRequirementsOwners(cs);
    ServedTypesPair(cs, M5Large, M5XLarge, 0);
    ServedTypesPair(cs, M5Large, M5XLarge, 1);
    assert ServedTypes(cs, its, 0) == [M5Large] + [] == [M5Large];
    assert ServedTypes(cs, its, 1) == [] + [M5XLarge] == [M5XLarge];
    assert GroupOf(cs, its, 0) == AmiGroup(cs[0], [M5Large]) && Chosen(cs, its, 0);
    assert GroupOf(cs, its, 1) == AmiGroup(cs[1], [M5XLarge]) && Chosen(cs, its, 1);
    assert SelectPrefix(cs, its, 0) == [];
    assert SelectPrefix(cs, its, 1) == [AmiGroup(cs[0], [M5Large])];
    assert SelectPrefix(cs, its, 2) == [AmiGroup(cs[0], [M5Large])] + [AmiGroup(cs[1], [M5XLarge])];
  }

  /**
    A newer untagged image takes an instance type away from an older image
    tagged for exactly that type: the older image serves nothing and gets no
    template.
   */
  lemma NewerGeneralImageWins(cs: seq<Candidate>)
    requires |cs| == 2
    requires cs[0].requirements == map[ArchLabel := "amd64"]
    requires cs[1].requirements == map[InstanceTypeLabel := "m5.large", ArchLabel := "amd64"]
    requires cs[0].creationDate > cs[1].creationDate
    ensures Select(cs, [M5Large]) == [AmiGroup(cs[0], [M5Large])]
  {
    var its := [M5Large];
    assert Compatible(M5Large, cs[0].requirements) && Compatible(M5Large, cs[1].requirements);
    NewestCompatibleServes(cs, M5Large, 0);
    assert [M5Large][1..] == [];
    assert ServedTypes(cs, its, 0) == [M5Large];
    assert ServedTypes(cs, its, 1) == [];
    assert SelectPrefix(cs, its, 1) == [AmiGroup(cs[0], [M5Large])];
  }

  /** An image of an unknown architecture boots nothing, so selection fails. */
  lemma UnknownArchitectureScenario()
    ensures Select([ToCandidate(Image("ami-123", "newnew", 20220101, map[]))], [M5Large, M5XLarge]) == []
  {
    var cs := [ToCandidate(Image("ami-123", "newnew", 20220101, map[]))];
    UntaggedRequirements("ami-123", "newnew", 20220101);
    assert !Compatible(M5Large, cs[0].requirements) by {
      assert "" !in M5Large.labels[ArchLabel];
    }
    assert !Compatible(M5XLarge, cs[0].requirements) by {
      assert "" !in M5XLarge.labels[ArchLabel];
    }
    SelectEmptyIff(cs, [M5Large, M5XLarge]);
  }
}
