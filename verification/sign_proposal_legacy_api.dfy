/**
 * The earlier proposal signing endpoint (pages/api/sign-proposal.ts), which names the signer
 * `signature` and the parent `organization`, and uploads without a database row.
 */
module SignProposalLegacyApi {
  import opened Wrappers
  import opened JsonValue
  import Did
  import Freshness
  import ArweaveTags

  /** The signer fields of a request: DID, chain, height, address and signature. */
  datatype Signature = Signature(did: string, coinType: int, snapshot: nat, address: string, sig: string)

  /** The proposal part of a request: everything except `signature`. */
  datatype ProposalData = ProposalData(organization: string, workgroup: string, rest: map<string, Json>)

  /** A request body that passed the schema. */
  datatype Request = Request(data: ProposalData, signature: Signature)

  /** A stored organization that passed its schema: the DID that signed it. */
  datatype Organization = Organization(signerDid: string)

  /**
   * Everything the handler consults that is not part of this model: the DID resolvers, the
   * signature check over the proposal's message, the current chain height, the stored
   * organization behind a permalink (`None` when it fails its schema), and the data-type
   * tests of the tagging step.
   */
  datatype Env = Env(
    resolvers: Did.Resolvers,
    verifySignature: (ProposalData, Signature) -> bool,
    currentSnapshot: int -> nat,
    fetchOrganization: string -> Option<Organization>,
    classifier: ArweaveTags.Classifier)

  /** The rejections, each answered with status 400. */
  datatype Rejection = SchemaError | InvalidSignature | OutdatedSnapshot | OrganizationSchemaError {
    function Message(): string {
      match this
      case SchemaError => "schema error"
      case InvalidSignature => "invalid signature"
      case OutdatedSnapshot => "outdated snapshot"
      case OrganizationSchemaError => "organization schema error"
    }
  }

  /**
   * How a request ends: rejected with a reason, aborted by an exception the handler does not
   * catch (its message), or uploaded with the request as data and the given tags.
   */
  datatype Response = Rejected(reason: Rejection) | Thrown(message: string) | Uploaded(data: Request, tags: map<string, string>)

  /** The HTTP status of a response; an uncaught exception becomes a server error. */
  function Status(r: Response): int {
    match r
    case Rejected(_) => 400
    case Thrown(_) => 500
    case Uploaded(_, _) => 200
  }

  /** The DID resolution the handler performs: at the claimed height of the claimed chain. */
  function ResolveSigner(req: Request, env: Env): Result<Did.Resolved, Did.DidError> {
    Did.ResolveDid(req.signature.did, map[req.signature.coinType := req.signature.snapshot], env.resolvers)
  }

  /** The signature is genuine: the DID resolves to the claimed chain and address, and the signature holds. */
  predicate SignatureGenuine(resolved: Did.Resolved, req: Request, env: Env) {
    && resolved.coinType == req.signature.coinType
    && resolved.address == req.signature.address
    && env.verifySignature(req.data, req.signature)
  }

  /** The DID resolves, and the signature it names is genuine. */
  predicate Genuine(req: Request, env: Env) {
    ResolveSigner(req, env).Success? && SignatureGenuine(ResolveSigner(req, env).value, req, env)
  }

  /** The claimed height is within the tolerance of the claimed chain's current height. */
  predicate IsFresh(req: Request, env: Env) {
    Freshness.Fresh(req.signature.snapshot, env.currentSnapshot(req.signature.coinType))
  }

  /** The tag fields of the uploaded proposal. */
  function TagSourceOf(req: Request): ArweaveTags.TagSource {
    ArweaveTags.TagSource(req.signature.did, req.data.organization, req.data.workgroup)
  }

  /**
   * `handler`: schema, signature, freshness and organization are checked in this order, the
   * first failure ending the request with 400; a request passing them is uploaded with its
   * storage tags.
   */
  function Handle(parsed: Option<Request>, env: Env): (r: Response)
    ensures parsed.None? ==> r == Rejected(SchemaError)
    ensures parsed.Some? && ResolveSigner(parsed.value, env).Failure? ==>
      r == Thrown(ResolveSigner(parsed.value, env).error.Message())
    ensures (parsed.Some? && ResolveSigner(parsed.value, env).Success?
             && !SignatureGenuine(ResolveSigner(parsed.value, env).value, parsed.value, env)) ==>
      r == Rejected(InvalidSignature)
    ensures r == Rejected(OutdatedSnapshot) <==>
      parsed.Some? && Genuine(parsed.value, env) && !IsFresh(parsed.value, env)
    ensures r == Rejected(OrganizationSchemaError) <==>
      && parsed.Some? && Genuine(parsed.value, env) && IsFresh(parsed.value, env)
      && env.fetchOrganization(parsed.value.data.organization).None?
    ensures (&& parsed.Some? && Genuine(parsed.value, env) && IsFresh(parsed.value, env)
             && env.fetchOrganization(parsed.value.data.organization).Some?
             && ArweaveTags.GetArweaveTags(TagSourceOf(parsed.value), env.classifier).Failure?) ==>
      r == Thrown(ArweaveTags.GetArweaveTags(TagSourceOf(parsed.value), env.classifier).error)
    ensures r.Uploaded? ==>
      && parsed.Some? && r.data == parsed.value
      && IsFresh(parsed.value, env)
      && env.fetchOrganization(parsed.value.data.organization).Some?
      && ArweaveTags.GetArweaveTags(TagSourceOf(parsed.value), env.classifier) == Success(r.tags)
  {
    match parsed
    case None => Rejected(SchemaError)
    case Some(req) =>
      match ResolveSigner(req, env)
      case Failure(e) => Thrown(e.Message())
      case Success(resolved) =>
        if !SignatureGenuine(resolved, req, env) then Rejected(InvalidSignature)
        else if !Freshness.Fresh(req.signature.snapshot, env.currentSnapshot(resolved.coinType)) then
          Rejected(OutdatedSnapshot)
        else
          match env.fetchOrganization(req.data.organization)
          case None => Rejected(OrganizationSchemaError)
          case Some(_) =>
            match ArweaveTags.GetArweaveTags(TagSourceOf(req), env.classifier)
            case Failure(message) => Thrown(message)
            case Success(tags) => Uploaded(req, tags)
  }

  /**
   * An uploaded proposal is tagged as a proposal of its organization and workgroup unless the
   * data-type test takes it for an organization; nothing is uploaded for a rejected request.
   */
  lemma UploadedTags(parsed: Option<Request>, env: Env)
    ensures var r := Handle(parsed, env);
      r.Uploaded? ==>
        && ArweaveTags.HasDefaults(r.tags)
        && (!env.classifier.isOrganization(TagSourceOf(parsed.value)) ==>
              r.tags["app-data-type"] == "proposal"
              && r.tags["app-parent-organization"] == parsed.value.data.organization
              && r.tags["app-parent-workgroup"] == parsed.value.data.workgroup)
  {
  }

  /** Every check an uploaded request has passed, tagging included. */
  predicate AllChecksPass(req: Request, env: Env) {
    && Genuine(req, env)
    && IsFresh(req, env)
    && env.fetchOrganization(req.data.organization).Some?
    && ArweaveTags.GetArweaveTags(TagSourceOf(req), env.classifier).Success?
  }

  /**
   * A request is uploaded, with status 200, exactly when every check passes; every rejection
   * answers 400.
   */
  lemma UploadedIffAllChecksPass(parsed: Option<Request>, env: Env)
    ensures Handle(parsed, env).Uploaded? <==> parsed.Some? && AllChecksPass(parsed.value, env)
    ensures Status(Handle(parsed, env)) == 200 <==> Handle(parsed, env).Uploaded?
    ensures Handle(parsed, env).Rejected? <==> Status(Handle(parsed, env)) == 400
  {
  }

  /** A stale request is reported as outdated even when its organization fails its schema. */
  lemma FreshnessCheckedBeforeOrganization(req: Request, env: Env)
    requires Genuine(req, env)
    requires !IsFresh(req, env)
    requires env.fetchOrganization(req.data.organization).None?
    ensures Handle(Some(req), env) == Rejected(OutdatedSnapshot)
  {
  }
}
