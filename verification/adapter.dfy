/**
 * The schema adapter of app.py (`adapt_feedback`): rewrites whatever object
 * the model produced into exactly the eleven keys of `LessonFeedback`,
 * resolving each key from the object itself, from one alias key, or from a
 * default.
 */
module Adapter {
  import opened Json
  import opened Wrappers

  /** The fields of `LessonFeedback`, in declaration order. */
  datatype Field =
    | Topic
    | NumericalGrade
    | LetterGrade
    | ScoreContent
    | ScoreOrganization
    | ScoreMechanics
    | Calculation
    | Strengths
    | Weaknesses
    | ImprovementSuggestions
    | MechanicsIssues

  /** The key under which each field appears in the adapted mapping. */
  function Key(f: Field): string
  {
    match f
    case Topic => "topic"
    case NumericalGrade => "numerical_grade"
    case LetterGrade => "letter_grade"
    case ScoreContent => "score_content"
    case ScoreOrganization => "score_organization"
    case ScoreMechanics => "score_mechanics"
    case Calculation => "calculation"
    case Strengths => "strengths"
    case Weaknesses => "weaknesses"
    case ImprovementSuggestions => "improvement_suggestions"
    case MechanicsIssues => "mechanics_issues"
  }

  /**
   * The alias consulted when a field's own value is missing or falsy; only the
   * numeric fields and `calculation` have one.
   */
  function Alias(f: Field): Option<string>
  {
    match f
    case NumericalGrade => Some("overall_score")
    case ScoreContent => Some("content_score")
    case ScoreOrganization => Some("organization_score")
    case ScoreMechanics => Some("mechanics_score")
    case Calculation => Some("score_breakdown")
    case _ => None
  }

  /** The value a field takes when neither its key nor its alias resolves it. */
  function Default(f: Field): Value
  {
    match f
    case Topic => JStr("Unknown Topic")
    case LetterGrade => JStr("N/A")
    case NumericalGrade | ScoreContent | ScoreOrganization | ScoreMechanics => JInt(0)
    case Calculation => JStr("")
    case Strengths | Weaknesses | ImprovementSuggestions | MechanicsIssues => JArr([])
  }

  /** The eleven schema keys. */
  const SchemaKeys: set<string> := {
    "topic", "numerical_grade", "letter_grade", "score_content",
    "score_organization", "score_mechanics", "calculation", "strengths",
    "weaknesses", "improvement_suggestions", "mechanics_issues"
  }

  /** Every field's key is a schema key, and different fields have different keys. */
  lemma KeysAreSchemaKeys(f: Field, g: Field)
    ensures Key(f) in SchemaKeys
    ensures Key(f) == Key(g) ==> f == g
  {
  }

  /** Python's `d.get(k, default)`. */
  function Get(d: map<string, Value>, k: string, default: Value): Value
  {
    if k in d then d[k] else default
  }

  /**
   * Python's `d.get(k) or d.get(alias, default)`: `d.get(k)` is None when the
   * key is missing, and None is falsy, so both "missing" and "falsy" fall
   * through to the alias.
   */
  function GetOrAlias(d: map<string, Value>, k: string, alias: string, default: Value): (r: Value)
    ensures k in d && Truthy(d[k]) ==> r == d[k]
    ensures !(k in d && Truthy(d[k])) && alias in d ==> r == d[alias]
    ensures !(k in d && Truthy(d[k])) && alias !in d ==> r == default
  {
    var v := if k in d then d[k] else JNull;
    if Truthy(v) then v else Get(d, alias, default)
  }

  /**
   * The resolution rule for one field, stated from the tables above: a field
   * without an alias takes its key's value whenever the key is present; a
   * field with an alias keeps its own value only when it is truthy, then
   * takes the alias's value whenever the alias is present, then the default.
   */
  function Resolve(raw: map<string, Value>, f: Field): Value
  {
    match Alias(f)
    case None => if Key(f) in raw then raw[Key(f)] else Default(f)
    case Some(alias) =>
      if Key(f) in raw && Truthy(raw[Key(f)]) then raw[Key(f)]
      else if alias in raw then raw[alias]
      else Default(f)
  }

  /** `adapt_feedback(raw_dict)`. */
  function Adapt(raw: map<string, Value>): (r: map<string, Value>)
    ensures r.Keys == SchemaKeys
  {
    map[
      "topic" := Get(raw, "topic", JStr("Unknown Topic")),
      "numerical_grade" := GetOrAlias(raw, "numerical_grade", "overall_score", JInt(0)),
      "letter_grade" := Get(raw, "letter_grade", JStr("N/A")),
      "score_content" := GetOrAlias(raw, "score_content", "content_score", JInt(0)),
      "score_organization" := GetOrAlias(raw, "score_organization", "organization_score", JInt(0)),
      "score_mechanics" := GetOrAlias(raw, "score_mechanics", "mechanics_score", JInt(0)),
      "calculation" := GetOrAlias(raw, "calculation", "score_breakdown", JStr("")),
      "strengths" := Get(raw, "strengths", JArr([])),
      "weaknesses" := Get(raw, "weaknesses", JArr([])),
      "improvement_suggestions" := Get(raw, "improvement_suggestions", JArr([])),
      "mechanics_issues" := Get(raw, "mechanics_issues", JArr([]))
    ]
  }

  /** Each field of the adapted mapping follows the resolution rule. */
  lemma AdaptResolvesEachField(raw: map<string, Value>, f: Field)
    ensures Key(f) in Adapt(raw) && Adapt(raw)[Key(f)] == Resolve(raw, f)
  {
    match f
    case Topic =>
    case NumericalGrade =>
    case LetterGrade =>
    case ScoreContent =>
    case ScoreOrganization =>
    case ScoreMechanics =>
    case Calculation =>
    case Strengths =>
    case Weaknesses =>
    case ImprovementSuggestions =>
    case MechanicsIssues =>
  }

  /** All eleven fields at once. */
  lemma AdaptFollowsRule(raw: map<string, Value>)
    ensures forall f :: Key(f) in Adapt(raw) && Adapt(raw)[Key(f)] == Resolve(raw, f)
  {
    forall f ensures Key(f) in Adapt(raw) && Adapt(raw)[Key(f)] == Resolve(raw, f) {
      AdaptResolvesEachField(raw, f);
    }
  }

  /**
   * `topic`, `letter_grade` and the four list fields: a present key is copied
   * unchanged, even when its value is falsy; a missing one takes the default.
   */
  lemma AdaptPresenceField(raw: map<string, Value>, f: Field)
    requires Alias(f).None?
    ensures Key(f) in raw ==> Adapt(raw)[Key(f)] == raw[Key(f)]
    ensures Key(f) !in raw ==> Adapt(raw)[Key(f)] == Default(f)
  {
    AdaptResolvesEachField(raw, f);
  }

  /**
   * The numeric fields and `calculation`: the field's own value only when it
   * is truthy, else the alias's value whenever the alias is present (even a
   * falsy one), else the default.
   */
  lemma AdaptTruthinessField(raw: map<string, Value>, f: Field, alias: string)
    requires Alias(f) == Some(alias)
    ensures Key(f) in raw && Truthy(raw[Key(f)]) ==> Adapt(raw)[Key(f)] == raw[Key(f)]
    ensures !(Key(f) in raw && Truthy(raw[Key(f)])) && alias in raw ==> Adapt(raw)[Key(f)] == raw[alias]
    ensures !(Key(f) in raw && Truthy(raw[Key(f)])) && alias !in raw ==> Adapt(raw)[Key(f)] == Default(f)
  {
    AdaptResolvesEachField(raw, f);
  }

  /** The alias keys themselves never reach the adapted mapping. */
  lemma AdaptDropsAliasKeys(raw: map<string, Value>, f: Field)
    requires Alias(f).Some?
    ensures Alias(f).value !in Adapt(raw)
  {
  }

  /** The feedback in which every field has its default value. */
  function DefaultFeedback(): (d: map<string, Value>)
    ensures d.Keys == SchemaKeys
  {
    map[
      "topic" := JStr("Unknown Topic"),
      "numerical_grade" := JInt(0),
      "letter_grade" := JStr("N/A"),
      "score_content" := JInt(0),
      "score_organization" := JInt(0),
      "score_mechanics" := JInt(0),
      "calculation" := JStr(""),
      "strengths" := JArr([]),
      "weaknesses" := JArr([]),
      "improvement_suggestions" := JArr([]),
      "mechanics_issues" := JArr([])
    ]
  }

  /** An empty object adapts to the all-default record. */
  lemma AdaptEmpty()
    ensures Adapt(map[]) == DefaultFeedback()
    ensures forall f :: Adapt(map[])[Key(f)] == Default(f)
  {
    AdaptFollowsRule(map[]);
  }

  /** The keys `adapt_feedback` looks at: the schema keys and the five aliases. */
  const ReadKeys: set<string> := SchemaKeys + {
    "overall_score", "content_score", "organization_score", "mechanics_score", "score_breakdown"
  }

  /** Adapted mappings agree when they agree on every field. */
  lemma AdaptedEqual(a: map<string, Value>, b: map<string, Value>)
    requires forall f :: Resolve(a, f) == Resolve(b, f)
    ensures Adapt(a) == Adapt(b)
  {
    AdaptFollowsRule(a);
    AdaptFollowsRule(b);
    forall k | k in SchemaKeys ensures Adapt(a)[k] == Adapt(b)[k] {
      var f := FieldOf(k);
      assert Resolve(a, f) == Resolve(b, f);
    }
  }

  /** The field whose key is `k`. */
  function FieldOf(k: string): (f: Field)
    requires k in SchemaKeys
    ensures Key(f) == k
  {
    if k == "topic" then Topic
    else if k == "numerical_grade" then NumericalGrade
    else if k == "letter_grade" then LetterGrade
    else if k == "score_content" then ScoreContent
    else if k == "score_organization" then ScoreOrganization
    else if k == "score_mechanics" then ScoreMechanics
    else if k == "calculation" then Calculation
    else if k == "strengths" then Strengths
    else if k == "weaknesses" then Weaknesses
    else if k == "improvement_suggestions" then ImprovementSuggestions
    else MechanicsIssues
  }

  /** Any key other than the sixteen it reads leaves the result unchanged. */
  lemma AdaptIgnoresOtherKeys(raw: map<string, Value>, k: string, v: Value)
    requires k !in ReadKeys
    ensures Adapt(raw[k := v]) == Adapt(raw)
  {
    forall f ensures Resolve(raw[k := v], f) == Resolve(raw, f) {
      KeysAreSchemaKeys(f, f);
    }
    AdaptedEqual(raw[k := v], raw);
  }

  /**
   * For a field with an alias, an explicit falsy value (0, "", null, ...) is
   * indistinguishable from a missing key: both fall through to the alias.
   */
  lemma AdaptFalsyLikeMissing(raw: map<string, Value>, f: Field, v: Value)
    requires Alias(f).Some? && !Truthy(v)
    ensures Adapt(raw[Key(f) := v]) == Adapt(raw - {Key(f)})
  {
    forall g ensures Resolve(raw[Key(f) := v], g) == Resolve(raw - {Key(f)}, g) {
      KeysAreSchemaKeys(f, g);
    }
    AdaptedEqual(raw[Key(f) := v], raw - {Key(f)});
  }

  /**
   * The known precision loss: with an alias present, an explicit score of 0
   * is replaced by the alias value; alone, the alias is used as well.
   */
  lemma AdaptZeroScoreTakesAlias(raw: map<string, Value>)
    requires raw == map["numerical_grade" := JInt(0), "overall_score" := JInt(77)]
    ensures Adapt(raw)["numerical_grade"] == JInt(77)
    ensures Adapt(raw - {"numerical_grade"})["numerical_grade"] == JInt(77)
  {
    AdaptResolvesEachField(raw, NumericalGrade);
    AdaptResolvesEachField(raw - {"numerical_grade"}, NumericalGrade);
  }

  /** The object of the end-to-end example in module Pipeline, adapted: the two
   * keys it has are copied and every other field takes its default. */
  lemma AdaptPhotosynthesis(fields: map<string, Value>)
    requires fields == map["topic" := JStr("Photosynthesis"), "numerical_grade" := JInt(85)]
    ensures Adapt(fields)["topic"] == JStr("Photosynthesis")
    ensures Adapt(fields)["numerical_grade"] == JInt(85)
    ensures Adapt(fields)["strengths"] == JArr([])
  {
    AdaptResolvesEachField(fields, Topic);
    AdaptResolvesEachField(fields, NumericalGrade);
    AdaptResolvesEachField(fields, Strengths);
  }
}
