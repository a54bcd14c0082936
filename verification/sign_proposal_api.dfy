/** The proposal signing endpoint (pages/api/sign/proposal.ts) as a decision pipeline. */
module SignProposalApi {
  import opened Wrappers
  import opened JsonValue
  import opened Seqs
  import Did
  import Freshness

  /** The signer fields of a request: DID, chain, height, address and signature. */
  datatype Author = Author(did: string, coinType: int, snapshot: nat, address: string, signature: string)

  /** The proposal part of a request: everything except `author`. */
  datatype ProposalData = ProposalData(
    did: Option<string>,
    community: string,
    group: string,
    snapshots: map<string, string>,
    rest: map<string, Json>)

  /** A request body that passed the schema. */
  datatype Request = Request(data: ProposalData, author: Author)

  /** A group of a community and the policy deciding who may propose in it. */
  datatype Group = Group(id: string, proposerLiberty: Json)

  /** A stored community that passed its schema; `groups` may be missing. */
  datatype Community = Community(groups: Option<seq<Group>>)

  /**
   * Everything the handler consults that is not part of this model: the DID resolvers, the
   * signature check over the proposal's message, the current chain height, the stored
   * community behind a permalink (`None` when it fails its schema), and the policy check.
   */
  datatype Env = Env(
    resolvers: Did.Resolvers,
    verifySignature: (ProposalData, Author) -> bool,
    currentSnapshot: int -> nat,
    fetchCommunity: string -> Option<Community>,
    checkProposerLiberty: (Json, string, map<string, string>) -> bool)

  /** The rejections, each answered with status 400. */
  datatype Rejection =
    | SchemaError
    | InvalidAuthor
    | OutdatedSnapshot
    | CommunitySchemaError
    | GroupNotFound
    | NoProposerLiberty
  {
    function Message(): string {
      match this
      case SchemaError => "schema error"
      case InvalidAuthor => "invalid author"
      case OutdatedSnapshot => "outdated snapshot"
      case CommunitySchemaError => "community schema error"
      case GroupNotFound => "group not found"
      case NoProposerLiberty => "does not have proposer liberty"
    }
  }

  /** The database row written for an accepted proposal. */
  datatype ProposalRecord = ProposalRecord(did: Option<string>, community: string, group: string, data: Request)

  /**
   * How a request ends: rejected with a reason, aborted by an exception the handler does not
   * catch (an unsupported or unresolvable DID), or stored.
   */
  datatype Response = Rejected(reason: Rejection) | Thrown(error: Did.DidError) | Stored(record: ProposalRecord)

  /** The HTTP status of a response; an uncaught exception becomes a server error. */
  function Status(r: Response): int {
    match r
    case Rejected(_) => 400
    case Thrown(_) => 500
    case Stored(_) => 200
  }

  /** The author is genuine: the DID resolves to the claimed chain and address, and the signature holds. */
  predicate AuthorGenuine(resolved: Did.Resolved, req: Request, env: Env) {
    && resolved.coinType == req.author.coinType
    && resolved.address == req.author.address
    && env.verifySignature(req.data, req.author)
  }

  /** The group of the community whose id is the proposal's group, the first if several. */
  function FindGroup(c: Community, id: string): (r: Option<Group>)
    ensures r.Some? ==> c.groups.Some? && r.value in c.groups.value && r.value.id == id
    ensures r.Some? ==>
      exists k :: 0 <= k < |c.groups.value| && c.groups.value[k] == r.value
        && forall j :: 0 <= j < k ==> c.groups.value[j].id != id
    ensures r.None? <==> c.groups.None? || forall k :: 0 <= k < |c.groups.value| ==> c.groups.value[k].id != id
  {
    match c.groups
    case None => None
    case Some(groups) => Find(groups, (g: Group) => g.id == id)
  }

  /** The DID resolution the handler performs: at the claimed height of the claimed chain. */
  function ResolveAuthor(req: Request, env: Env): Result<Did.Resolved, Did.DidError> {
    Did.ResolveDid(req.author.did, map[req.author.coinType := req.author.snapshot], env.resolvers)
  }

  /** The DID resolves, and the author it names is genuine. */
  predicate Genuine(req: Request, env: Env) {
    ResolveAuthor(req, env).Success? && AuthorGenuine(ResolveAuthor(req, env).value, req, env)
  }

  /** The claimed height is within the tolerance of the claimed chain's current height. */
  predicate IsFresh(req: Request, env: Env) {
    Freshness.Fresh(req.author.snapshot, env.currentSnapshot(req.author.coinType))
  }

  /**
   * `handler`: schema, author, freshness, community, group and proposer liberty are checked
   * in this order; the first failure ends the request, and only a request passing all of
   * them is stored.
   */
  function Handle(parsed: Option<Request>, env: Env): (r: Response)
    ensures parsed.None? ==> r == Rejected(SchemaError)
    ensures parsed.Some? && ResolveAuthor(parsed.value, env).Failure? ==>
      r == Thrown(ResolveAuthor(parsed.value, env).error)
    ensures (parsed.Some? && ResolveAuthor(parsed.value, env).Success?
             && !AuthorGenuine(ResolveAuthor(parsed.value, env).value, parsed.value, env)) ==>
      r == Rejected(InvalidAuthor)
    ensures r == Rejected(OutdatedSnapshot) <==>
      parsed.Some? && Genuine(parsed.value, env) && !IsFresh(parsed.value, env)
    ensures r == Rejected(CommunitySchemaError) <==>
      && parsed.Some? && Genuine(parsed.value, env) && IsFresh(parsed.value, env)
      && env.fetchCommunity(parsed.value.data.community).None?
    ensures r == Rejected(GroupNotFound) <==>
      && parsed.Some? && Genuine(parsed.value, env) && IsFresh(parsed.value, env)
      && env.fetchCommunity(parsed.value.data.community).Some?
      && FindGroup(env.fetchCommunity(parsed.value.data.community).value, parsed.value.data.group).None?
    ensures r == Rejected(NoProposerLiberty) <==>
      && parsed.Some? && Genuine(parsed.value, env) && IsFresh(parsed.value, env)
      && env.fetchCommunity(parsed.value.data.community).Some?
      && var g := FindGroup(env.fetchCommunity(parsed.value.data.community).value, parsed.value.data.group);
         g.Some? && !env.checkProposerLiberty(g.value.proposerLiberty, parsed.value.author.did, parsed.value.data.snapshots)
    ensures r.Stored? ==> parsed.Some? && r.record == ProposalRecord(
      parsed.value.data.did, parsed.value.data.community, parsed.value.data.group, parsed.value)
  {
    match parsed
    case None => Rejected(SchemaError)
    case Some(req) =>
      match ResolveAuthor(req, env)
      case Failure(e) => Thrown(e)
      case Success(resolved) =>
        if !AuthorGenuine(resolved, req, env) then Rejected(InvalidAuthor)
        else if !Freshness.Fresh(req.author.snapshot, env.currentSnapshot(resolved.coinType)) then
          Rejected(OutdatedSnapshot)
        else
          match env.fetchCommunity(req.data.community)
          case None => Rejected(CommunitySchemaError)
          case Some(community) =>
            match FindGroup(community, req.data.group)
            case None => Rejected(GroupNotFound)
            case Some(group) =>
              if !env.checkProposerLiberty(group.proposerLiberty, req.author.did, req.data.snapshots) then
                Rejected(NoProposerLiberty)
              else
                Stored(ProposalRecord(req.data.did, req.data.community, req.data.group, req))
  }

  /** Every check a stored request has passed. */
  predicate AllChecksPass(req: Request, env: Env) {
    && Genuine(req, env)
    && IsFresh(req, env)
    && env.fetchCommunity(req.data.community).Some?
    && FindGroup(env.fetchCommunity(req.data.community).value, req.data.group).Some?
    && env.checkProposerLiberty(
         FindGroup(env.fetchCommunity(req.data.community).value, req.data.group).value.proposerLiberty,
         req.author.did, req.data.snapshots)
  }

  /**
   * A request is stored, with status 200, exactly when every check passes; every other
   * outcome writes nothing, and every rejection answers 400.
   */
  lemma StoredIffAllChecksPass(parsed: Option<Request>, env: Env)
    ensures Handle(parsed, env).Stored? <==> parsed.Some? && AllChecksPass(parsed.value, env)
    ensures Status(Handle(parsed, env)) == 200 <==> Handle(parsed, env).Stored?
    ensures Handle(parsed, env).Rejected? <==> Status(Handle(parsed, env)) == 400
  {
  }

  /** A forged author is reported as such even when the snapshot is also stale. */
  lemma AuthorCheckedBeforeFreshness(req: Request, env: Env)
    requires ResolveAuthor(req, env).Success?
    requires !AuthorGenuine(ResolveAuthor(req, env).value, req, env)
    requires !IsFresh(req, env)
    ensures Handle(Some(req), env) == Rejected(InvalidAuthor)
  {
  }
}
