/**
 * DID dispatch (src/utils/did/index.ts): the suffix of a DID selects the resolver of the
 * `.bit` or the `.eth` family; every other DID is unsupported.
 */
module Did {
  import opened Wrappers
  import opened Strings

  /** The two supported DID families. */
  datatype Suffix = Bit | Eth {
    function Name(): string {
      match this
      case Bit => "bit"
      case Eth => "eth"
    }
  }

  /** A DID of one of the supported families: `${string}.bit` or `${string}.eth`. */
  type SupportedDid = did: string | DidSuffixIs(did, Bit) || DidSuffixIs(did, Eth) witness ".bit"

  /** Snapshot per coin type: the chain height a resolution is performed at. */
  type Snapshots = map<int, nat>

  /** What a resolver answers: the chain it resolved on and the address bound to the DID. */
  datatype Resolved = Resolved(coinType: int, address: string)

  /**
   * One family's resolver. Its resolution step talks to a chain and is not part of this
   * model, so it is carried as a function value; it may fail with a message.
   */
  datatype Resolver = Resolver(
    resolve: (string, Snapshots) -> Result<Resolved, string>,
    requiredCoinTypes: seq<int>)

  /** The resolver of each supported family. */
  datatype Resolvers = Resolvers(bit: Resolver, eth: Resolver)

  /** Why resolving a DID failed. */
  datatype DidError =
    | UnsupportedDid(did: string)
    | ResolutionFailed(reason: string)
  {
    /** The text of the thrown `Error`. */
    function Message(): string {
      match this
      case UnsupportedDid(did) => "unsupported did: " + did
      case ResolutionFailed(reason) => reason
    }
  }

  /** `didSuffixIs(did, suffix)`: the DID ends with a dot followed by the family name. */
  predicate DidSuffixIs(did: string, suffix: Suffix) {
    EndsWith(did, "." + suffix.Name())
  }

  /** A DID carries a family's suffix exactly when it is some name, a dot and the family name. */
  lemma DidSuffixIsShape(did: string, suffix: Suffix)
    ensures DidSuffixIs(did, suffix) <==>
      |did| >= 4 && did == did[..|did| - 4] + "." + suffix.Name()
  {
    if DidSuffixIs(did, suffix) {
      assert did == did[..|did| - 4] + did[|did| - 4..];
    }
  }

  /** Any name followed by a dot and the family name is a DID of that family. */
  lemma DidOfName(name: string, suffix: Suffix)
    ensures DidSuffixIs(name + "." + suffix.Name(), suffix)
  {
    var did := name + "." + suffix.Name();
    assert did[|did| - 4..] == "." + suffix.Name();
  }

  /** No DID belongs to both families, so the order of the suffix tests is irrelevant. */
  lemma SuffixesExclusive(did: string)
    ensures !(DidSuffixIs(did, Bit) && DidSuffixIs(did, Eth))
  {
    if DidSuffixIs(did, Bit) {
      assert did[|did| - 4..][1] == 'b' != ("." + Eth.Name())[1];
    }
  }

  /** The family a DID belongs to, tested in the source's order. */
  function FamilyOf(did: string): (r: Option<Suffix>)
    ensures r == Some(Bit) <==> DidSuffixIs(did, Bit)
    ensures r == Some(Eth) <==> DidSuffixIs(did, Eth)
    ensures r == None <==> !DidSuffixIs(did, Bit) && !DidSuffixIs(did, Eth)
  {
    SuffixesExclusive(did);
    if DidSuffixIs(did, Bit) then Some(Bit)
    else if DidSuffixIs(did, Eth) then Some(Eth)
    else None
  }

  /** The resolver serving a family. */
  function ResolverOf(rs: Resolvers, family: Suffix): Resolver {
    match family
    case Bit => rs.bit
    case Eth => rs.eth
  }

  /** A resolver's own failure, surfaced as a resolution failure. */
  function Lift(r: Result<Resolved, string>): (l: Result<Resolved, DidError>)
    ensures l.Success? <==> r.Success?
    ensures r.Success? ==> l.value == r.value
    ensures r.Failure? ==> l == Failure(ResolutionFailed(r.error))
  {
    match r
    case Success(v) => Success(v)
    case Failure(e) => Failure(ResolutionFailed(e))
  }

  /**
   * `resolveDid`: delegates to the `.bit` resolver for `.bit` DIDs and to the `.eth`
   * resolver for `.eth` DIDs, and fails as unsupported for every other DID.
   */
  function ResolveDid(did: string, snapshots: Snapshots, rs: Resolvers): (r: Result<Resolved, DidError>)
    ensures DidSuffixIs(did, Bit) ==> r == Lift(rs.bit.resolve(did, snapshots))
    ensures DidSuffixIs(did, Eth) ==> r == Lift(rs.eth.resolve(did, snapshots))
    ensures r == Failure(UnsupportedDid(did)) <==> !DidSuffixIs(did, Bit) && !DidSuffixIs(did, Eth)
  {
    match FamilyOf(did)
    case Some(family) => Lift(ResolverOf(rs, family).resolve(did, snapshots))
    case None => Failure(UnsupportedDid(did))
  }

  /**
   * `requiredCoinTypesOfDidResolver`: the coin types the DID's resolver needs snapshots of,
   * or the unsupported-DID failure.
   */
  function RequiredCoinTypesOfDidResolver(did: string, rs: Resolvers): (r: Result<seq<int>, DidError>)
    ensures DidSuffixIs(did, Bit) ==> r == Success(rs.bit.requiredCoinTypes)
    ensures DidSuffixIs(did, Eth) ==> r == Success(rs.eth.requiredCoinTypes)
    ensures r.Failure? <==> !DidSuffixIs(did, Bit) && !DidSuffixIs(did, Eth)
    ensures r.Failure? ==> r.error == UnsupportedDid(did)
  {
    match FamilyOf(did)
    case Some(family) => Success(ResolverOf(rs, family).requiredCoinTypes)
    case None => Failure(UnsupportedDid(did))
  }

  /** Resolution is rejected as unsupported exactly when the coin-type lookup is. */
  lemma UnsupportedAgree(did: string, snapshots: Snapshots, rs: Resolvers)
    ensures ResolveDid(did, snapshots, rs) == Failure(UnsupportedDid(did))
        <==> RequiredCoinTypesOfDidResolver(did, rs).Failure?
  {
  }
}
