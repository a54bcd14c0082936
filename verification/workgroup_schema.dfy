/** The workgroup schema (src/utils/schemas/workgroup.ts), as a parser of JSON. */
module WorkgroupSchema {
  import opened Wrappers
  import opened JsonValue

  /** The least announcement and voting duration, one hour in seconds. */
  const MIN_DURATION := 3600
  /** The longest introduction. */
  const MAX_INTRODUCTION := 160

  /** The schemas of the two policy trees, which are not part of this model. */
  datatype PolicySchemas = PolicySchemas(booleanSets: Json -> bool, decimalSets: Json -> bool)

  /** A parsed workgroup; fields the schema does not name are dropped. */
  datatype Workgroup = Workgroup(
    id: string,
    name: string,
    announcement: int,
    voting: int,
    proposing: Json,
    votingPower: Json,
    introduction: Option<string>,
    termsAndConditions: string)
  {
    /** The field constraints of the schema. */
    predicate Valid(ps: PolicySchemas) {
      && |id| >= 1
      && |name| >= 1
      && announcement >= MIN_DURATION
      && voting >= MIN_DURATION
      && ps.booleanSets(proposing)
      && ps.decimalSets(votingPower)
      && (introduction.Some? ==> |introduction.value| <= MAX_INTRODUCTION)
      && |termsAndConditions| >= 1
    }
  }

  /**
   * The optional introduction: absent is accepted as `None`, a string as itself; any other
   * value (including `null`) is rejected.
   */
  function ParseIntroduction(extension: Json): (r: Option<Option<string>>)
    ensures Get(extension, "introduction").None? ==> r == Some(None)
    ensures StringAt(extension, "introduction").Some? ==> r == Some(StringAt(extension, "introduction"))
    ensures r.Some? ==> Get(extension, "introduction").None? || StringAt(extension, "introduction").Some?
  {
    match Get(extension, "introduction")
    case None => Some(None)
    case Some(JStr(s)) => Some(Some(s))
    case Some(_) => None
  }

  /**
   * `j` holds the fields of `w` where the schema looks for them, each with its JSON type;
   * other members of `j`, at any level, are not constrained.
   */
  predicate Represents(j: Json, w: Workgroup) {
      && StringAt(j, "id") == Some(w.id)
      && StringAt(j, "name") == Some(w.name)
      && ObjectAt(j, "duration").Some?
      && NumberAt(ObjectAt(j, "duration").value, "announcement") == Some(w.announcement)
      && NumberAt(ObjectAt(j, "duration").value, "voting") == Some(w.voting)
      && ObjectAt(j, "permission").Some?
      && Get(ObjectAt(j, "permission").value, "proposing") == Some(w.proposing)
      && Get(ObjectAt(j, "permission").value, "voting") == Some(w.votingPower)
      && ObjectAt(j, "extension").Some?
      && ParseIntroduction(ObjectAt(j, "extension").value) == Some(w.introduction)
      && StringAt(ObjectAt(j, "extension").value, "terms_and_conditions") == Some(w.termsAndConditions)
  }

  /**
   * `workgroupSchema.safeParse`: the workgroup when every field is present with the right
   * type and satisfies the constraints, nothing otherwise.
   */
  function ParseWorkgroup(j: Json, ps: PolicySchemas): (r: Option<Workgroup>)
    ensures r.Some? ==> r.value.Valid(ps) && Represents(j, r.value)
    ensures forall w :: Represents(j, w) && w.Valid(ps) ==> r == Some(w)
  {
    match (StringAt(j, "id"), StringAt(j, "name"), ObjectAt(j, "duration"),
           ObjectAt(j, "permission"), ObjectAt(j, "extension"))
    case (Some(id), Some(name), Some(duration), Some(permission), Some(extension)) =>
      (match (NumberAt(duration, "announcement"), NumberAt(duration, "voting"),
              Get(permission, "proposing"), Get(permission, "voting"),
              ParseIntroduction(extension), StringAt(extension, "terms_and_conditions"))
       case (Some(a), Some(v), Some(proposing), Some(votingPower), Some(intro), Some(terms)) =>
         var w := Workgroup(id, name, a, v, proposing, votingPower, intro, terms);
         if w.Valid(ps) then Some(w) else None
       case _ => None)
    case _ => None
  }

  /** The JSON form of a workgroup, as it is stored inside a community. */
  function ToJson(w: Workgroup): Json {
    var terms := map["terms_and_conditions" := JStr(w.termsAndConditions)];
    JObj(map[
      "id" := JStr(w.id),
      "name" := JStr(w.name),
      "duration" := JObj(map["announcement" := JNum(w.announcement), "voting" := JNum(w.voting)]),
      "permission" := JObj(map["proposing" := w.proposing, "voting" := w.votingPower]),
      "extension" := JObj(match w.introduction
                          case Some(s) => terms["introduction" := JStr(s)]
                          case None => terms)
    ])
  }

  /** Each field of a workgroup's JSON form holds that field. */
  lemma ToJsonFields(w: Workgroup)
    ensures Represents(ToJson(w), w)
  {
  }

  /** A valid workgroup survives serialisation and parsing unchanged. */
  lemma ParseToJson(w: Workgroup, ps: PolicySchemas)
    requires w.Valid(ps)
    ensures ParseWorkgroup(ToJson(w), ps) == Some(w)
  {
    ToJsonFields(w);
  }

  /** Members the schema does not name are stripped: adding one to a valid workgroup's form changes nothing. */
  lemma ExtraKeysStripped(w: Workgroup, ps: PolicySchemas, key: string, value: Json)
    requires w.Valid(ps)
    requires key !in {"id", "name", "duration", "permission", "extension"}
    ensures ParseWorkgroup(JObj(ToJson(w).fields[key := value]), ps) == Some(w)
  {
    ToJsonFields(w);
    assert Represents(JObj(ToJson(w).fields[key := value]), w);
  }

  /** One hour is the shortest accepted duration: 3600 seconds pass, 3599 do not. */
  lemma DurationBoundary(w: Workgroup, ps: PolicySchemas)
    requires w.Valid(ps)
    ensures ParseWorkgroup(ToJson(w.(announcement := 3600)), ps).Some?
    ensures ParseWorkgroup(ToJson(w.(voting := 3600)), ps).Some?
    ensures ParseWorkgroup(ToJson(w.(announcement := 3599)), ps).None?
    ensures ParseWorkgroup(ToJson(w.(voting := 3599)), ps).None?
  {
    ParseToJson(w.(announcement := 3600), ps);
    ParseToJson(w.(voting := 3600), ps);
    ToJsonFields(w.(announcement := 3599));
    ToJsonFields(w.(voting := 3599));
  }

  /** A JSON value that parses has both of its stored durations at least an hour long. */
  lemma ParsedDurationsAtLeastHour(j: Json, ps: PolicySchemas)
    ensures ParseWorkgroup(j, ps).Some? ==>
      NumberAt(ObjectAt(j, "duration").value, "announcement").value >= MIN_DURATION
      && NumberAt(ObjectAt(j, "duration").value, "voting").value >= MIN_DURATION
  {
  }

  /** A permission missing either policy is rejected. */
  lemma PermissionNeedsBoth(j: Json, ps: PolicySchemas)
    requires ObjectAt(j, "permission").Some?
    requires Get(ObjectAt(j, "permission").value, "proposing").None?
          || Get(ObjectAt(j, "permission").value, "voting").None?
    ensures ParseWorkgroup(j, ps).None?
  {
  }

  /** An introduction longer than 160 characters, or a `null` one, is rejected. */
  lemma IntroductionBound(j: Json, ps: PolicySchemas)
    requires ObjectAt(j, "extension").Some?
    requires var e := ObjectAt(j, "extension").value;
      Get(e, "introduction") == Some(JNull)
      || (StringAt(e, "introduction").Some? && |StringAt(e, "introduction").value| > MAX_INTRODUCTION)
    ensures ParseWorkgroup(j, ps).None?
  {
  }
}
