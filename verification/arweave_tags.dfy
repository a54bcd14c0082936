/** Storage tags attached to an uploaded document (src/utils/arweave-tags.ts). */
module ArweaveTags {
  import opened Wrappers

  /**
   * The fields of a signed organization or proposal that tagging reads: the signer's DID,
   * and the organization and workgroup a proposal belongs to.
   */
  datatype TagSource = TagSource(signatureDid: string, organization: string, workgroup: string)

  /** The data-type tests, which are not part of this model. */
  datatype Classifier = Classifier(isOrganization: TagSource -> bool, isProposal: TagSource -> bool)

  const CANNOT_TAG := "cannot get arweave tags"

  /** The tags every upload carries. */
  const DEFAULT_TAGS: map<string, string> := map[
    "content-type" := "application/json",
    "app-name" := "voty",
    "app-version" := "0.0.0"
  ]

  /** Holds when `tags` contains the default tags with their values. */
  predicate HasDefaults(tags: map<string, string>) {
    && "content-type" in tags && tags["content-type"] == "application/json"
    && "app-name" in tags && tags["app-name"] == "voty"
    && "app-version" in tags && tags["app-version"] == "0.0.0"
  }

  /** The keys of the default tags. */
  const DEFAULT_KEYS: set<string> := {"content-type", "app-name", "app-version"}

  /** The keys of an organization's tags. */
  const ORGANIZATION_KEYS: set<string> := DEFAULT_KEYS + {"app-data-type", "app-parent-did"}

  /** The keys of a proposal's tags. */
  const PROPOSAL_KEYS: set<string> :=
    DEFAULT_KEYS + {"app-data-type", "app-parent-organization", "app-parent-workgroup"}

  /** Adding a key that differs in length from every key of a set grows the set by one. */
  lemma AddByLength(keys: set<string>, key: string)
    requires forall k | k in keys :: |k| != |key|
    ensures |keys + {key}| == |keys| + 1
  {
    assert key !in keys;
  }

  /** The default keys are three distinct strings; they differ in length. */
  lemma DefaultKeyCount()
    ensures |DEFAULT_KEYS| == 3
  {
    AddByLength({"content-type"}, "app-name");
    AddByLength({"content-type", "app-name"}, "app-version");
  }

  /** An organization's tags have five distinct keys. */
  lemma OrganizationKeyCount()
    ensures |ORGANIZATION_KEYS| == 5
  {
    var s1 := DEFAULT_KEYS + {"app-data-type"};
    assert |s1| == 4 by { TypedKeyCount(); }
    assert |s1 + {"app-parent-did"}| == 5 by { AddByLength(s1, "app-parent-did"); }
    assert ORGANIZATION_KEYS == s1 + {"app-parent-did"};
  }

  /** The default keys with the data type: four distinct keys. */
  lemma TypedKeyCount()
    ensures |DEFAULT_KEYS + {"app-data-type"}| == 4
  {
    DefaultKeyCount();
    AddByLength(DEFAULT_KEYS, "app-data-type");
  }

  /** The default keys with the data type and the parent organization: five distinct keys. */
  lemma ProposalPrefixCount()
    ensures |DEFAULT_KEYS + {"app-data-type"} + {"app-parent-organization"}| == 5
  {
    var s1 := DEFAULT_KEYS + {"app-data-type"};
    assert |s1| == 4 by { TypedKeyCount(); }
    AddByLength(s1, "app-parent-organization");
  }

  /** A proposal's tags have six distinct keys. */
  lemma ProposalKeyCount()
    ensures |PROPOSAL_KEYS| == 6
  {
    var s2 := DEFAULT_KEYS + {"app-data-type"} + {"app-parent-organization"};
    assert |s2| == 5 by { ProposalPrefixCount(); }
    assert |s2 + {"app-parent-workgroup"}| == 6 by { AddByLength(s2, "app-parent-workgroup"); }
    assert PROPOSAL_KEYS == s2 + {"app-parent-workgroup"};
  }

  /**
   * `getArweaveTags`: the default tags plus the data type and its parents. An organization
   * names its signer; a proposal (tested only when the value is not an organization) names
   * its organization and workgroup; anything else fails.
   */
  function GetArweaveTags(src: TagSource, c: Classifier): (r: Result<map<string, string>, string>)
    ensures r.Success? <==> c.isOrganization(src) || c.isProposal(src)
    ensures r.Failure? ==> r.error == CANNOT_TAG
    ensures r.Success? ==> HasDefaults(r.value) && "app-data-type" in r.value
    ensures c.isOrganization(src) ==>
      && r.value["app-data-type"] == "organization"
      && "app-parent-did" in r.value && r.value["app-parent-did"] == src.signatureDid
      && r.value.Keys == ORGANIZATION_KEYS
      && |r.value| == 5
    ensures !c.isOrganization(src) && c.isProposal(src) ==>
      && r.value["app-data-type"] == "proposal"
      && "app-parent-organization" in r.value && r.value["app-parent-organization"] == src.organization
      && "app-parent-workgroup" in r.value && r.value["app-parent-workgroup"] == src.workgroup
      && r.value.Keys == PROPOSAL_KEYS
      && |r.value| == 6
  {
    if c.isOrganization(src) then
      var tags := DEFAULT_TAGS["app-data-type" := "organization"]["app-parent-did" := src.signatureDid];
      OrganizationKeyCount();
      assert tags.Keys == ORGANIZATION_KEYS;
      assert |tags| == |tags.Keys|;
      Success(tags)
    else if c.isProposal(src) then
      var tags := DEFAULT_TAGS["app-data-type" := "proposal"]
        ["app-parent-organization" := src.organization]["app-parent-workgroup" := src.workgroup];
      ProposalKeyCount();
      assert tags.Keys == PROPOSAL_KEYS;
      assert |tags| == |tags.Keys|;
      Success(tags)
    else
      Failure(CANNOT_TAG)
  }
}
