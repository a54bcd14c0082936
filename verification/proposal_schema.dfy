/** The proposal schemas (src/schemas/proposal.ts), as parsers of JSON. */
module ProposalSchema {
  import opened Wrappers
  import opened JsonValue

  /** `voting_type`: one of three literals. */
  datatype VotingType = Single | Multiple | Weighted

  /** A parsed proposal; fields the schema does not name are dropped. */
  datatype Proposal = Proposal(
    community: string,
    group: string,
    title: string,
    votingType: VotingType,
    body: string,
    options: seq<string>,
    snapshots: map<string, string>)
  {
    /** The field constraints of the schema. */
    predicate Valid() {
      && |community| >= 1
      && |group| >= 1
      && |title| >= 1
      && |options| >= 1
      && forall k :: 0 <= k < |options| ==> |options[k]| >= 1
    }
  }

  /** The text of each voting type. */
  function VotingTypeName(t: VotingType): string {
    match t
    case Single => "single"
    case Multiple => "multiple"
    case Weighted => "weighted"
  }

  /** `z.enum(['single', 'multiple', 'weighted'])` */
  function ParseVotingType(s: string): (r: Option<VotingType>)
    ensures r.Some? <==> s in {"single", "multiple", "weighted"}
    ensures r.Some? ==> VotingTypeName(r.value) == s
  {
    if s == "single" then Some(Single)
    else if s == "multiple" then Some(Multiple)
    else if s == "weighted" then Some(Weighted)
    else None
  }

  /** The texts of an array whose every element is a non-empty string. */
  function ParseOptions(items: seq<Json>): (r: Option<seq<string>>)
    ensures r.Some? <==> forall k :: 0 <= k < |items| ==> items[k].JStr? && |items[k].s| >= 1
    ensures r.Some? ==> |r.value| == |items|
    ensures r.Some? ==> forall k :: 0 <= k < |items| ==> items[k] == JStr(r.value[k])
  {
    if |items| == 0 then Some([])
    else
      match (items[0], ParseOptions(items[1..]))
      case (JStr(s), Some(rest)) => if |s| >= 1 then Some([s] + rest) else None
      case _ => None
  }

  /** `z.record(z.string(), z.string())`: an object whose every member is a string. */
  function ParseSnapshots(j: Json): (r: Option<map<string, string>>)
    ensures r.Some? <==> j.JObj? && forall k :: k in j.fields ==> j.fields[k].JStr?
    ensures r.Some? ==> r.value.Keys == j.fields.Keys
    ensures r.Some? ==> forall k :: k in r.value ==> j.fields[k] == JStr(r.value[k])
  {
    if j.JObj? && forall k :: k in j.fields ==> j.fields[k].JStr? then
      Some(map k | k in j.fields :: j.fields[k].s)
    else None
  }

  /**
   * `j` holds the fields of `p` where the schema looks for them, each with its JSON type;
   * other members of `j` are not constrained.
   */
  predicate Represents(j: Json, p: Proposal) {
      && StringAt(j, "community") == Some(p.community)
      && StringAt(j, "group") == Some(p.group)
      && StringAt(j, "title") == Some(p.title)
      && StringAt(j, "voting_type") == Some(VotingTypeName(p.votingType))
      && StringAt(j, "body") == Some(p.body)
      && Get(j, "options").Some? && Get(j, "options").value.JArr?
      && ParseOptions(Get(j, "options").value.items) == Some(p.options)
      && Get(j, "snapshots").Some?
      && ParseSnapshots(Get(j, "snapshots").value) == Some(p.snapshots)
  }

  /** `proposalSchema.safeParse`: the proposal when every field is present and valid. */
  function ParseProposal(j: Json): (r: Option<Proposal>)
    ensures r.Some? ==> r.value.Valid() && Represents(j, r.value)
    ensures forall p :: Represents(j, p) && p.Valid() ==> r == Some(p)
  {
    match (StringAt(j, "community"), StringAt(j, "group"), StringAt(j, "title"),
           StringAt(j, "voting_type"), StringAt(j, "body"), Get(j, "options"), Get(j, "snapshots"))
    case (Some(community), Some(group), Some(title), Some(vt), Some(body), Some(JArr(items)), Some(s)) =>
      (match (ParseVotingType(vt), ParseOptions(items), ParseSnapshots(s))
       case (Some(votingType), Some(options), Some(snapshots)) =>
         var p := Proposal(community, group, title, votingType, body, options, snapshots);
         if p.Valid() then Some(p) else None
       case _ => None)
    case _ => None
  }

  /**
   * `proposalWithAuthorSchema.safeParse`: a proposal together with an `author` accepted by
   * the author schema, which is not part of this model.
   */
  function ParseProposalWithAuthor<A>(j: Json, parseAuthor: Json -> Option<A>): (r: Option<(Proposal, A)>)
    ensures r.Some? <==>
      ParseProposal(j).Some? && Get(j, "author").Some? && parseAuthor(Get(j, "author").value).Some?
    ensures r.Some? ==> r.value.0 == ParseProposal(j).value
    ensures r.Some? ==> Some(r.value.1) == parseAuthor(Get(j, "author").value)
  {
    match (ParseProposal(j), Get(j, "author"))
    case (Some(p), Some(a)) =>
      (match parseAuthor(a)
       case Some(author) => Some((p, author))
       case None => None)
    case _ => None
  }

  /** The JSON form of a list of texts. */
  function OptionsToJson(options: seq<string>): (r: seq<Json>)
    ensures |r| == |options|
    ensures forall k :: 0 <= k < |r| ==> r[k] == JStr(options[k])
  {
    seq(|options|, k requires 0 <= k < |options| => JStr(options[k]))
  }

  /** The JSON form of a snapshot record. */
  function SnapshotsToJson(m: map<string, string>): Json {
    JObj(map k | k in m :: JStr(m[k]))
  }

  /** The JSON form of a proposal. */
  function ToJson(p: Proposal): Json {
    JObj(map[
      "community" := JStr(p.community),
      "group" := JStr(p.group),
      "title" := JStr(p.title),
      "voting_type" := JStr(VotingTypeName(p.votingType)),
      "body" := JStr(p.body),
      "options" := JArr(OptionsToJson(p.options)),
      "snapshots" := SnapshotsToJson(p.snapshots)
    ])
  }

  /** Each field of a proposal's JSON form holds that field. */
  lemma ToJsonFields(p: Proposal)
    ensures var j := ToJson(p);
      && StringAt(j, "community") == Some(p.community)
      && StringAt(j, "group") == Some(p.group)
      && StringAt(j, "title") == Some(p.title)
      && StringAt(j, "voting_type") == Some(VotingTypeName(p.votingType))
      && StringAt(j, "body") == Some(p.body)
      && Get(j, "options") == Some(JArr(OptionsToJson(p.options)))
      && Get(j, "snapshots") == Some(SnapshotsToJson(p.snapshots))
  {
  }

  /** Non-empty option texts survive serialisation and parsing. */
  lemma OptionsRoundTrip(options: seq<string>)
    requires forall k :: 0 <= k < |options| ==> |options[k]| >= 1
    ensures ParseOptions(OptionsToJson(options)) == Some(options)
  {
    var r := ParseOptions(OptionsToJson(options));
    assert r.Some?;
    assert r.value == options;
  }

  /** A snapshot record survives serialisation and parsing. */
  lemma SnapshotsRoundTrip(m: map<string, string>)
    ensures ParseSnapshots(SnapshotsToJson(m)) == Some(m)
  {
    assert ParseSnapshots(SnapshotsToJson(m)).value == m;
  }

  /** Each voting type parses back from its text. */
  lemma VotingTypeRoundTrip(t: VotingType)
    ensures ParseVotingType(VotingTypeName(t)) == Some(t)
  {
  }

  /** A valid proposal survives serialisation and parsing unchanged. */
  lemma ParseToJson(p: Proposal)
    requires p.Valid()
    ensures ParseProposal(ToJson(p)) == Some(p)
  {
    ToJsonFields(p);
    OptionsRoundTrip(p.options);
    SnapshotsRoundTrip(p.snapshots);
    VotingTypeRoundTrip(p.votingType);
  }

  /** Members the schema does not name are stripped: adding one to a valid proposal's form changes nothing. */
  lemma ExtraKeysStripped(p: Proposal, key: string, value: Json)
    requires p.Valid()
    requires key !in {"community", "group", "title", "voting_type", "body", "options", "snapshots"}
    ensures ParseProposal(JObj(ToJson(p).fields[key := value])) == Some(p)
  {
    ToJsonFields(p);
    OptionsRoundTrip(p.options);
    SnapshotsRoundTrip(p.snapshots);
    assert Represents(JObj(ToJson(p).fields[key := value]), p);
  }

  /** The body may be empty, while the community, group and title may not. */
  lemma EmptyBodyAccepted(p: Proposal)
    requires p.Valid()
    ensures ParseProposal(ToJson(p.(body := ""))) == Some(p.(body := ""))
    ensures ParseProposal(ToJson(p.(title := ""))).None?
    ensures ParseProposal(ToJson(p.(options := []))).None?
  {
    ParseToJson(p.(body := ""));
    ToJsonFields(p.(title := ""));
    ToJsonFields(p.(options := []));
  }
}
