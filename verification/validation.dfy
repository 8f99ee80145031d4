/**
  Admission rules of the node class: every selector list that must be present
  is non-empty, each selector term sets exactly the fields it may combine, tag
  maps inside terms carry no empty key or value, the node class's own tags use
  no key the controller reserves, and custom user data is refused for the
  Windows families.
 */
module Validation {
  import opened Wrappers
  import opened Apis

  datatype Field = SubnetSelectorTerms | SecurityGroupSelectorTerms | AmiSelectorTerms | Tags | UserData

  datatype Problem =
    | NoTerms                   // the list is nil or empty
    | NoDiscriminant            // a term sets none of its selecting fields
    | MutuallyExclusive         // a term sets fields that may not be combined
    | EmptyTagKey
    | EmptyTagValue
    | RestrictedTagKey(key: string)
    | UserDataWithWindows

  /** A finding: the field it concerns, the term index inside a list, and what is wrong. */
  datatype FieldError = FieldError(field: Field, index: Option<nat>, problem: Problem)

  /** 1 for a field that is set, 0 otherwise; sums of these count the fields a term sets. */
  function Flag(isSet: bool): nat {
    if isSet then 1 else 0
  }

  // ---------------------------------------------------------------------------
  // Tag maps inside selector terms

  function TagEntryProblems(tags: TagMap): set<Problem> {
    (if "" in tags then {EmptyTagKey} else {})
    + (if "" in tags.Values then {EmptyTagValue} else {})
  }

  ghost predicate TagEntriesWellFormed(tags: TagMap) {
    forall k :: k in tags ==> k != "" && tags[k] != ""
  }

  lemma TagEntryProblemsExact(tags: TagMap)
    ensures TagEntryProblems(tags) == {} <==> TagEntriesWellFormed(tags)
  {
    if !TagEntriesWellFormed(tags) {
      var k :| k in tags && (k == "" || tags[k] == "");
      if k != "" {
        assert tags[k] in tags.Values;
      }
    }
  }

  // ---------------------------------------------------------------------------
  // One term of each kind

  function SubnetTermProblems(t: SubnetSelectorTerm): set<Problem> {
    (if |t.tags| == 0 && t.id == "" then {NoDiscriminant} else {})
    + (if |t.tags| > 0 && t.id != "" then {MutuallyExclusive} else {})
    + TagEntryProblems(t.tags)
  }

  /** A subnet term selects by exactly one of its tag map and its id. */
  ghost predicate SubnetTermConforms(t: SubnetSelectorTerm) {
    Flag(|t.tags| > 0) + Flag(t.id != "") == 1 && TagEntriesWellFormed(t.tags)
  }

  lemma SubnetTermProblemsExact(t: SubnetSelectorTerm)
    ensures SubnetTermProblems(t) == {} <==> SubnetTermConforms(t)
  {
    TagEntryProblemsExact(t.tags);
  }

  function SecurityGroupTermProblems(t: SecurityGroupSelectorTerm): set<Problem> {
    (if |t.tags| == 0 && t.id == "" && t.name == "" then {NoDiscriminant} else {})
    + (if (|t.tags| > 0 && t.id != "") || (|t.tags| > 0 && t.name != "") || (t.id != "" && t.name != "")
       then {MutuallyExclusive} else {})
    + TagEntryProblems(t.tags)
  }

  /** A security-group term selects by exactly one of its tag map, its id and its name. */
  ghost predicate SecurityGroupTermConforms(t: SecurityGroupSelectorTerm) {
    Flag(|t.tags| > 0) + Flag(t.id != "") + Flag(t.name != "") == 1 && TagEntriesWellFormed(t.tags)
  }

  lemma SecurityGroupTermProblemsExact(t: SecurityGroupSelectorTerm)
    ensures SecurityGroupTermProblems(t) == {} <==> SecurityGroupTermConforms(t)
  {
    TagEntryProblemsExact(t.tags);
  }

  function AmiTermProblems(t: AmiSelectorTerm): set<Problem> {
    (if |t.tags| == 0 && t.id == "" && t.name == "" && t.ssm == "" then {NoDiscriminant} else {})
    + (if t.id != "" && (|t.tags| > 0 || t.name != "" || t.owner != "" || t.ssm != "")
       then {MutuallyExclusive} else {})
    + TagEntryProblems(t.tags)
  }

  /**
    An AMI term selects by at least one of tags, id, name and parameter-store
    path, and an id stands alone: no tags, name, owner or path beside it.
   */
  ghost predicate AmiTermConforms(t: AmiSelectorTerm) {
    && Flag(|t.tags| > 0) + Flag(t.id != "") + Flag(t.name != "") + Flag(t.ssm != "") >= 1
    && (t.id != "" ==> Flag(|t.tags| > 0) + Flag(t.name != "") + Flag(t.owner != "") + Flag(t.ssm != "") == 0)
    && TagEntriesWellFormed(t.tags)
  }

  lemma AmiTermProblemsExact(t: AmiSelectorTerm)
    ensures AmiTermProblems(t) == {} <==> AmiTermConforms(t)
  {
    TagEntryProblemsExact(t.tags);
  }

  // ---------------------------------------------------------------------------
  // Lists of terms

  /** Every problem of every term, tagged with the list it belongs to and the term's index. */
  function TermListErrors<T>(terms: seq<T>, problems: T -> set<Problem>, field: Field): set<FieldError>
    decreases |terms|
  {
    if |terms| == 0 then {}
    else
      TermListErrors(terms[..|terms| - 1], problems, field)
      + AtIndex(problems(terms[|terms| - 1]), field, |terms| - 1)
  }

  /** The problems of one term, reported against its list and index. */
  function AtIndex(ps: set<Problem>, field: Field, i: nat): set<FieldError> {
    set p | p in ps :: FieldError(field, Some(i), p)
  }

  /** A problem of term `i` is reported at index `i`, and nothing is reported that no term has. */
  lemma {:induction false} TermListErrorsExact<T>(terms: seq<T>, problems: T -> set<Problem>, field: Field, e: FieldError)
    ensures e in TermListErrors(terms, problems, field) <==>
            (&& e.field == field && e.index.Some? && e.index.value < |terms|
             && e.problem in problems(terms[e.index.value]))
    decreases |terms|
  {
    if |terms| > 0 {
      var init := terms[..|terms| - 1];
      TermListErrorsExact(init, problems, field, e);
      if e.index.Some? && e.index.value < |init| {
        assert init[e.index.value] == terms[e.index.value];
      }
    }
  }

  /** A list is free of findings exactly when each of its terms is. */
  lemma TermListErrorsEmpty<T>(terms: seq<T>, problems: T -> set<Problem>, field: Field)
    ensures TermListErrors(terms, problems, field) == {} <==>
            forall i :: 0 <= i < |terms| ==> problems(terms[i]) == {}
  {
    if TermListErrors(terms, problems, field) != {} {
      var e :| e in TermListErrors(terms, problems, field);
      TermListErrorsExact(terms, problems, field, e);
    }
    if exists i :: 0 <= i < |terms| && problems(terms[i]) != {} {
      var i :| 0 <= i < |terms| && problems(terms[i]) != {};
      var p :| p in problems(terms[i]);
      TermListErrorsExact(terms, problems, field, FieldError(field, Some(i), p));
    }
  }

  function RequiredListErrors(count: nat, field: Field): set<FieldError> {
    if count == 0 then {FieldError(field, None, NoTerms)} else {}
  }

  // ---------------------------------------------------------------------------
  // The node class's own tags and user data

  predicate IsAlphaNumeric(c: char) {
    ('a' <= c <= 'z') || ('A' <= c <= 'Z') || ('0' <= c <= '9')
  }

  predicate IsClusterNameChar(c: char) {
    IsAlphaNumeric(c) || c == '-' || c == '_'
  }

  /**
    The keys the controller sets itself: the exact provisioner-name and
    managed-by keys, and `kubernetes.io/cluster/<name>` where the name starts
    with a letter or digit and continues with letters, digits, '-' or '_'.
    The dots are literal: `karpenterzsh/provisioner-name` is not restricted.
   */
  predicate IsRestrictedTagKey(k: string) {
    || k == ProvisionerNameTagKey
    || k == ManagedByTagKey
    || (&& |k| > |ClusterTagPrefix|
        && k[..|ClusterTagPrefix|] == ClusterTagPrefix
        && IsAlphaNumeric(k[|ClusterTagPrefix|])
        && forall i :: |ClusterTagPrefix| < i < |k| ==> IsClusterNameChar(k[i]))
  }

  function TagErrors(tags: TagMap): set<FieldError> {
    set k | k in tags && IsRestrictedTagKey(k) :: FieldError(Tags, None, RestrictedTagKey(k))
  }

  function UserDataErrors(userData: Option<string>, family: Option<AmiFamily>): set<FieldError> {
    if userData.Some? && IsWindows(FamilyOf(family)) then {FieldError(UserData, None, UserDataWithWindows)} else {}
  }

  // ---------------------------------------------------------------------------
  // The whole node class

  /** The admission rules, stated term by term and key by key. */
  ghost predicate Conforms(spec: NodeClassSpec) {
    && |spec.subnetSelectorTerms| > 0
    && |spec.securityGroupSelectorTerms| > 0
    && (forall i :: 0 <= i < |spec.subnetSelectorTerms| ==> SubnetTermConforms(spec.subnetSelectorTerms[i]))
    && (forall i :: 0 <= i < |spec.securityGroupSelectorTerms| ==>
          SecurityGroupTermConforms(spec.securityGroupSelectorTerms[i]))
    && (forall i :: 0 <= i < |spec.amiSelectorTerms| ==> AmiTermConforms(spec.amiSelectorTerms[i]))
    && (forall k :: k in spec.tags ==> !IsRestrictedTagKey(k))
    && !(spec.userData.Some? && IsWindows(FamilyOf(spec.amiFamily)))
  }

  /** All findings of the node class; it is admitted when there are none. */
  function Validate(spec: NodeClassSpec): (errs: set<FieldError>)
    ensures errs == {} <==> Conforms(spec)
  {
    var subnets := spec.subnetSelectorTerms;
    var groups := spec.securityGroupSelectorTerms;
    var amis := spec.amiSelectorTerms;
    TermListErrorsEmpty(subnets, SubnetTermProblems, SubnetSelectorTerms);
    TermListErrorsEmpty(groups, SecurityGroupTermProblems, SecurityGroupSelectorTerms);
    TermListErrorsEmpty(amis, AmiTermProblems, AmiSelectorTerms);
    forall i | 0 <= i < |subnets| { SubnetTermProblemsExact(subnets[i]); }
    forall i | 0 <= i < |groups| { SecurityGroupTermProblemsExact(groups[i]); }
    forall i | 0 <= i < |amis| { AmiTermProblemsExact(amis[i]); }
    assert TagErrors(spec.tags) == {} <==> forall k :: k in spec.tags ==> !IsRestrictedTagKey(k) by {
      if k :| k in spec.tags && IsRestrictedTagKey(k) {
        assert FieldError(Tags, None, RestrictedTagKey(k)) in TagErrors(spec.tags);
      }
    }
    RequiredListErrors(|subnets|, SubnetSelectorTerms)
    + RequiredListErrors(|groups|, SecurityGroupSelectorTerms)
    + TermListErrors(subnets, SubnetTermProblems, SubnetSelectorTerms)
    + TermListErrors(groups, SecurityGroupTermProblems, SecurityGroupSelectorTerms)
    + TermListErrors(amis, AmiTermProblems, AmiSelectorTerms)
    + TagErrors(spec.tags)
    + UserDataErrors(spec.userData, spec.amiFamily)
  }

  /** One bad subnet term anywhere in the list, the last one included, refuses the node class. */
  lemma {:induction false} InvalidSubnetTermRefuses(spec: NodeClassSpec, i: nat)
    requires i < |spec.subnetSelectorTerms|
    requires SubnetTermProblems(spec.subnetSelectorTerms[i]) != {}
    ensures exists p :: FieldError(SubnetSelectorTerms, Some(i), p) in Validate(spec)
  {
    var p :| p in SubnetTermProblems(spec.subnetSelectorTerms[i]);
    TermListErrorsExact(spec.subnetSelectorTerms, SubnetTermProblems, SubnetSelectorTerms,
                        FieldError(SubnetSelectorTerms, Some(i), p));
  }

  /** The same for security-group terms. */
  lemma {:induction false} InvalidSecurityGroupTermRefuses(spec: NodeClassSpec, i: nat)
    requires i < |spec.securityGroupSelectorTerms|
    requires SecurityGroupTermProblems(spec.securityGroupSelectorTerms[i]) != {}
    ensures exists p :: FieldError(SecurityGroupSelectorTerms, Some(i), p) in Validate(spec)
  {
    var p :| p in SecurityGroupTermProblems(spec.securityGroupSelectorTerms[i]);
    TermListErrorsExact(spec.securityGroupSelectorTerms, SecurityGroupTermProblems, SecurityGroupSelectorTerms,
                        FieldError(SecurityGroupSelectorTerms, Some(i), p));
  }

  /** The same for AMI terms. */
  lemma {:induction false} InvalidAmiTermRefuses(spec: NodeClassSpec, i: nat)
    requires i < |spec.amiSelectorTerms|
    requires AmiTermProblems(spec.amiSelectorTerms[i]) != {}
    ensures exists p :: FieldError(AmiSelectorTerms, Some(i), p) in Validate(spec)
  {
    var p :| p in AmiTermProblems(spec.amiSelectorTerms[i]);
    TermListErrorsExact(spec.amiSelectorTerms, AmiTermProblems, AmiSelectorTerms,
                        FieldError(AmiSelectorTerms, Some(i), p));
  }
}
