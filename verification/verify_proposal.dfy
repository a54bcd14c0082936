/** Verification of a proposal against its community (src/utils/verifiers/verify-proposal.ts). */
module VerifyProposal {
  import opened Wrappers
  import opened JsonValue
  import opened Seqs
  import Documents
  import WorkgroupSchema

  type Workgroup = WorkgroupSchema.Workgroup

  /** A stored community; its list of workgroups may be missing. */
  datatype Community = Community(workgroups: Option<seq<Workgroup>>)

  /** The fields of a signed proposal the verifier reads. */
  datatype ProposalRef = ProposalRef(
    community: string,
    workgroup: string,
    authorship: Documents.Authorship,
    snapshots: map<string, string>)

  /**
   * The collaborators, none of which is part of this model: the timestamp of the height at
   * which the community's permalink was stored, the stored community, and the evaluation
   * of a boolean policy for a DID at the given snapshots.
   */
  datatype Env = Env(
    communityTimestamp: string -> Option<int>,
    getCommunity: string -> Option<Community>,
    checkBoolean: (Json, string, map<string, string>) -> bool)

  /** The tRPC error codes the verifier raises. */
  datatype Code = BadRequest | Forbidden

  /** A raised tRPC error: its code and message. */
  datatype VerifyError = VerifyError(code: Code, message: string)

  const COMMUNITY_NOT_FOUND := VerifyError(BadRequest, "Community not found")
  const WORKGROUP_NOT_FOUND := VerifyError(BadRequest, "Workgroup not found")
  const PERMISSION_DENIED := VerifyError(Forbidden, "Proposing permission denied")

  /** The workgroup of a community whose id is `id`, the first if several. */
  function FindWorkgroup(c: Community, id: string): (r: Option<Workgroup>)
    ensures r.Some? ==> c.workgroups.Some? && r.value in c.workgroups.value && r.value.id == id
    ensures r.Some? ==>
      exists k :: 0 <= k < |c.workgroups.value| && c.workgroups.value[k] == r.value
        && forall j :: 0 <= j < k ==> c.workgroups.value[j].id != id
    ensures r.None? <==>
      c.workgroups.None? || forall k :: 0 <= k < |c.workgroups.value| ==> c.workgroups.value[k].id != id
  {
    match c.workgroups
    case None => None
    case Some(ws) => Find(ws, (w: Workgroup) => w.id == id)
  }

  /**
   * `verifyProposal`: the community must be found with a timestamp, the proposal's
   * workgroup must be one of its workgroups, and the proposer must satisfy that workgroup's
   * proposing policy at the proposal's snapshots.
   */
  function VerifyProposal(p: ProposalRef, env: Env): (r: Result<(Community, Workgroup), VerifyError>)
    ensures env.communityTimestamp(p.community).None? || env.getCommunity(p.community).None? <==>
      r == Failure(COMMUNITY_NOT_FOUND)
    ensures r == Failure(WORKGROUP_NOT_FOUND) <==>
      env.communityTimestamp(p.community).Some? && env.getCommunity(p.community).Some?
      && FindWorkgroup(env.getCommunity(p.community).value, p.workgroup).None?
    ensures r == Failure(PERMISSION_DENIED) <==>
      && env.communityTimestamp(p.community).Some? && env.getCommunity(p.community).Some?
      && var w := FindWorkgroup(env.getCommunity(p.community).value, p.workgroup);
         w.Some? && !env.checkBoolean(w.value.proposing, p.authorship.author, p.snapshots)
    ensures r.Success? ==>
      && Some(r.value.0) == env.getCommunity(p.community)
      && Some(r.value.1) == FindWorkgroup(r.value.0, p.workgroup)
      && env.checkBoolean(r.value.1.proposing, p.authorship.author, p.snapshots)
  {
    match (env.communityTimestamp(p.community), env.getCommunity(p.community))
    case (Some(_), Some(community)) =>
      (match FindWorkgroup(community, p.workgroup)
       case None => Failure(WORKGROUP_NOT_FOUND)
       case Some(workgroup) =>
         if !env.checkBoolean(workgroup.proposing, p.authorship.author, p.snapshots) then
           Failure(PERMISSION_DENIED)
         else Success((community, workgroup)))
    case _ => Failure(COMMUNITY_NOT_FOUND)
  }

  /** Every check a verified proposal has passed. */
  predicate AllChecksPass(p: ProposalRef, env: Env) {
    && env.communityTimestamp(p.community).Some?
    && env.getCommunity(p.community).Some?
    && FindWorkgroup(env.getCommunity(p.community).value, p.workgroup).Some?
    && env.checkBoolean(
         FindWorkgroup(env.getCommunity(p.community).value, p.workgroup).value.proposing,
         p.authorship.author, p.snapshots)
  }

  /**
   * A proposal is verified exactly when every check passes, and then the verdict is that of
   * the first workgroup with the proposal's id; a denial is FORBIDDEN while both not-found
   * errors are BAD_REQUEST.
   */
  lemma AcceptedIffAllChecksPass(p: ProposalRef, env: Env)
    ensures VerifyProposal(p, env).Success? <==> AllChecksPass(p, env)
    ensures VerifyProposal(p, env).Failure? ==>
      (VerifyProposal(p, env).error.code == Forbidden <==> VerifyProposal(p, env) == Failure(PERMISSION_DENIED))
  {
  }

  /**
   * With two workgroups of the proposal's id, the first one's policy decides: a proposer it
   * denies is denied, whatever the second one's policy says.
   */
  lemma FirstWorkgroupDecides(p: ProposalRef, env: Env, first: Workgroup, second: Workgroup)
    requires env.communityTimestamp(p.community).Some?
    requires env.getCommunity(p.community) == Some(Community(Some([first, second])))
    requires first.id == p.workgroup && second.id == p.workgroup
    requires !env.checkBoolean(first.proposing, p.authorship.author, p.snapshots)
    ensures VerifyProposal(p, env) == Failure(PERMISSION_DENIED)
  {
    assert [first, second][0] == first;
  }
}
