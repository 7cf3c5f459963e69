/**
 * The business-rule record (src/types/rules.ts): three closed enumerations,
 * ordered condition and action lines, and the three rules shipped as defaults.
 * The enumerations travel as their lower-case names; the name functions and
 * their parsers are inverse to each other and refuse every other string.
 */
module Rules {
  import opened Wrappers

  datatype RuleKind = Validation | Transformation | Constraint
  datatype RuleStatus = Active | Inactive | Draft
  datatype Priority = Low | Medium | High

  /** `kind` stands for the field the source calls `type` (a reserved word here). */
  datatype BusinessRule = BusinessRule(
    id: string,
    name: string,
    description: string,
    kind: RuleKind,
    status: RuleStatus,
    conditions: seq<string>,
    actions: seq<string>,
    priority: Priority)

  function KindName(k: RuleKind): string
  {
    match k
    case Validation => "validation"
    case Transformation => "transformation"
    case Constraint => "constraint"
  }

  function StatusName(s: RuleStatus): string
  {
    match s
    case Active => "active"
    case Inactive => "inactive"
    case Draft => "draft"
  }

  function PriorityName(p: Priority): string
  {
    match p
    case Low => "low"
    case Medium => "medium"
    case High => "high"
  }

  /** The kind a name denotes; no other string denotes one. */
  function ParseKind(s: string): (r: Option<RuleKind>)
    ensures r.Some? ==> KindName(r.value) == s
    ensures r.None? ==> forall k :: KindName(k) != s
  {
    if s == "validation" then Some(Validation)
    else if s == "transformation" then Some(Transformation)
    else if s == "constraint" then Some(Constraint)
    else None
  }

  /** The status a name denotes; no other string denotes one. */
  function ParseStatus(s: string): (r: Option<RuleStatus>)
    ensures r.Some? ==> StatusName(r.value) == s
    ensures r.None? ==> forall t :: StatusName(t) != s
  {
    if s == "active" then Some(Active)
    else if s == "inactive" then Some(Inactive)
    else if s == "draft" then Some(Draft)
    else None
  }

  /** The priority a name denotes; no other string denotes one. */
  function ParsePriority(s: string): (r: Option<Priority>)
    ensures r.Some? ==> PriorityName(r.value) == s
    ensures r.None? ==> forall p :: PriorityName(p) != s
  {
    if s == "low" then Some(Low)
    else if s == "medium" then Some(Medium)
    else if s == "high" then Some(High)
    else None
  }

  /** Names are never confused: parsing a name gives back the value it names. */
  lemma EnumNamesRoundTrip(k: RuleKind, s: RuleStatus, p: Priority)
    ensures ParseKind(KindName(k)) == Some(k)
    ensures ParseStatus(StatusName(s)) == Some(s)
    ensures ParsePriority(PriorityName(p)) == Some(p)
  {
  }

  /** No two rules of the list share an id. */
  predicate DistinctIds(rules: seq<BusinessRule>)
  {
    forall i, j :: 0 <= i < j < |rules| ==> rules[i].id != rules[j].id
  }

  const DefaultRules: seq<BusinessRule> := [
    BusinessRule(
      "1", "Client Priority Validation", "Ensure client priority levels are between 1-5",
      Validation, Active, ["PriorityLevel >= 1", "PriorityLevel <= 5"],
      ["Flag as invalid if out of range"], High),
    BusinessRule(
      "2", "Worker Skill Matching", "Match worker skills with task requirements",
      Constraint, Active, ["Worker.Skills contains Task.RequiredSkills"],
      ["Assign worker to task", "Log assignment"], Medium),
    BusinessRule(
      "3", "Task Duration Limit", "Limit task duration to maximum 30 days",
      Validation, Draft, ["Task.Duration <= 30"],
      ["Warn if duration exceeds limit"], Low)
  ]

  /** The defaults: ids '1'..'3', rule '1' is the high-priority 1..5 range check, '3' is the low-priority draft. */
  lemma DefaultRulesShape()
    ensures |DefaultRules| == 3 && DistinctIds(DefaultRules)
    ensures DefaultRules[0].id == "1" && DefaultRules[1].id == "2" && DefaultRules[2].id == "3"
    ensures DefaultRules[0].priority == High
    ensures DefaultRules[0].conditions == ["PriorityLevel >= 1", "PriorityLevel <= 5"]
    ensures DefaultRules[0].status == Active && DefaultRules[1].status == Active
    ensures DefaultRules[2].status == Draft && DefaultRules[2].priority == Low
  {
  }
}
