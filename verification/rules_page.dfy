/**
 * The rule editor page (src/app/rules/page.tsx). Its form holds every field
 * as text, with conditions and actions one per line; creating, editing and
 * AI drafting convert between that form and rule payloads. The page's state
 * is class `Page`; each handler is a method that returns the request it would
 * send (the network calls themselves are not modelled).
 */
module RulesPage {
  import opened Wrappers
  import opened Text
  import opened Rules
  import opened AiRoute

  /** The form: each field is absent until something sets it; `id` is only ever set by Edit. */
  datatype RuleForm = RuleForm(
    id: Option<string>,
    name: Option<string>,
    description: Option<string>,
    kind: Option<string>,
    status: Option<string>,
    priority: Option<string>,
    conditions: Option<string>,
    actions: Option<string>)

  const EmptyForm := RuleForm(None, None, None, None, None, None, None, None)

  /** The inputs of the form, named as in the markup. */
  datatype FormField = NameField | DescriptionField | KindField | StatusField | PriorityField | ConditionsField | ActionsField

  function FieldValue(form: RuleForm, f: FormField): Option<string>
  {
    match f
    case NameField => form.name
    case DescriptionField => form.description
    case KindField => form.kind
    case StatusField => form.status
    case PriorityField => form.priority
    case ConditionsField => form.conditions
    case ActionsField => form.actions
  }

  /** `handleFormChange`: the named input takes the typed value, nothing else in the form moves. */
  function WithField(form: RuleForm, f: FormField, value: string): (r: RuleForm)
    ensures FieldValue(r, f) == Some(value)
    ensures forall g :: g != f ==> FieldValue(r, g) == FieldValue(form, g)
    ensures r.id == form.id
  {
    match f
    case NameField => form.(name := Some(value))
    case DescriptionField => form.(description := Some(value))
    case KindField => form.(kind := Some(value))
    case StatusField => form.(status := Some(value))
    case PriorityField => form.(priority := Some(value))
    case ConditionsField => form.(conditions := Some(value))
    case ActionsField => form.(actions := Some(value))
  }

  /** The body of a POST or PUT: the form's text fields as they are, and the two lists. */
  datatype RuleDraft = RuleDraft(
    id: Option<string>,
    name: Option<string>,
    description: Option<string>,
    kind: Option<string>,
    status: Option<string>,
    priority: Option<string>,
    conditions: seq<string>,
    actions: seq<string>)

  /** Absent or empty text is no lines; any other text is split at each newline. */
  function Lines(text: Option<string>): (lines: seq<string>)
    ensures !Filled(text) ==> lines == []
    ensures Filled(text) ==> lines == Split(text.value, '\n')
    ensures forall i :: 0 <= i < |lines| ==> '\n' !in lines[i]
  {
    if text.Some? && |text.value| > 0 then Split(text.value, '\n') else []
  }

  /** The lists that come back unchanged through one join and one split: not [""], and no line holding a newline. */
  predicate SurvivesLines(xs: seq<string>)
  {
    xs != [""] && forall i :: 0 <= i < |xs| ==> '\n' !in xs[i]
  }

  /** Splitting what was joined gives the list back exactly when it survives. */
  lemma LinesOfJoin(xs: seq<string>)
    ensures Lines(Some(Join(xs, "\n"))) == xs <==> SurvivesLines(xs)
  {
    JoinEmpty(xs, '\n');
    if SurvivesLines(xs) && xs != [] {
      SplitJoin(xs, '\n');
    }
    if !SurvivesLines(xs) && xs != [""] {
      var i :| 0 <= i < |xs| && '\n' in xs[i];
      var lines := Lines(Some(Join(xs, "\n")));
      if |lines| == |xs| {
        assert lines[i] != xs[i];
      }
    }
  }

  /** Joining what was split gives the text back, for every text. */
  lemma JoinOfLines(text: string)
    ensures Join(Lines(Some(text)), "\n") == text
  {
    if text != "" {
      JoinSplit(text, '\n');
    }
  }

  /** `handleCreate`'s body: nothing is sent unless name, type, status and priority are all filled. */
  function CreateDraft(form: RuleForm): (d: Option<RuleDraft>)
    ensures d.None? <==> !Filled(form.name) || !Filled(form.kind) || !Filled(form.status) || !Filled(form.priority)
    ensures d.Some? ==> d.value.name == form.name && d.value.kind == form.kind
                        && d.value.status == form.status && d.value.priority == form.priority
                        && d.value.id == form.id && d.value.description == form.description
    ensures d.Some? ==> d.value.conditions == Lines(form.conditions) && d.value.actions == Lines(form.actions)
  {
    if !Filled(form.name) || !Filled(form.kind) || !Filled(form.status) || !Filled(form.priority) then None
    else Some(RuleDraft(form.id, form.name, form.description, form.kind, form.status, form.priority,
                        Lines(form.conditions), Lines(form.actions)))
  }

  /** `handleEdit`'s form: the rule's fields as text, the lists joined with newlines. */
  function EditForm(rule: BusinessRule): RuleForm
  {
    RuleForm(Some(rule.id), Some(rule.name), Some(rule.description), Some(KindName(rule.kind)),
             Some(StatusName(rule.status)), Some(PriorityName(rule.priority)),
             Some(Join(rule.conditions, "\n")), Some(Join(rule.actions, "\n")))
  }

  /** A stored rule written out as a request body. */
  function DraftOf(rule: BusinessRule): RuleDraft
  {
    RuleDraft(Some(rule.id), Some(rule.name), Some(rule.description), Some(KindName(rule.kind)),
              Some(StatusName(rule.status)), Some(PriorityName(rule.priority)), rule.conditions, rule.actions)
  }

  /** `{...selectedRule, ...form}`: every field the form holds overrides the rule's; the lists always come from the form. */
  function Merge(selected: BusinessRule, form: RuleForm): (d: RuleDraft)
    ensures d.id == Some(form.id.GetOr(selected.id))
    ensures form.name.Some? ==> d.name == form.name
    ensures form.name.None? ==> d.name == Some(selected.name)
    ensures form.description.Some? ==> d.description == form.description
    ensures form.description.None? ==> d.description == Some(selected.description)
    ensures form.kind.Some? ==> d.kind == form.kind
    ensures form.kind.None? ==> d.kind == Some(KindName(selected.kind))
    ensures form.status.Some? ==> d.status == form.status
    ensures form.status.None? ==> d.status == Some(StatusName(selected.status))
    ensures form.priority.Some? ==> d.priority == form.priority
    ensures form.priority.None? ==> d.priority == Some(PriorityName(selected.priority))
    ensures d.conditions == Lines(form.conditions) && d.actions == Lines(form.actions)
  {
    RuleDraft(
      Some(form.id.GetOr(selected.id)),
      Some(form.name.GetOr(selected.name)),
      Some(form.description.GetOr(selected.description)),
      Some(form.kind.GetOr(KindName(selected.kind))),
      Some(form.status.GetOr(StatusName(selected.status))),
      Some(form.priority.GetOr(PriorityName(selected.priority))),
      Lines(form.conditions),
      Lines(form.actions))
  }

  /** Opening a rule and saving it untouched sends the rule back exactly when both its lists survive the newline round trip. */
  lemma EditSaveRoundTrip(rule: BusinessRule)
    ensures Merge(rule, EditForm(rule)) == DraftOf(rule) <==> SurvivesLines(rule.conditions) && SurvivesLines(rule.actions)
  {
    LinesOfJoin(rule.conditions);
    LinesOfJoin(rule.actions);
  }

  /** A rule whose only condition is the empty line loses it on an untouched save. */
  lemma EmptyLineIsLost(rule: BusinessRule)
    requires rule.conditions == [""]
    ensures Merge(rule, EditForm(rule)).conditions == []
  {
  }

  /** A string field of the AI draft, or the default when it is missing or empty. */
  function OrDefault(s: Option<string>, default: string): (r: string)
    ensures Filled(s) ==> r == s.value
    ensures !Filled(s) ==> r == default
  {
    if Filled(s) then s.value else default
  }

  /** `handleAIGenerate`'s form: falsy fields take their defaults, anything else (even outside the enumerations) passes through. */
  function AiForm(rule: AiRule): (form: RuleForm)
    ensures form.id.None?
    ensures form.name == Some(OrDefault(rule.name, ""))
    ensures form.description == Some(OrDefault(rule.description, ""))
    ensures form.kind == Some(OrDefault(rule.kind, "validation"))
    ensures form.status == Some(OrDefault(rule.status, "active"))
    ensures form.priority == Some(OrDefault(rule.priority, "medium"))
    ensures form.conditions == Some(Join(rule.conditions.GetOr([]), "\n"))
    ensures form.actions == Some(Join(rule.actions.GetOr([]), "\n"))
  {
    RuleForm(None, Some(OrDefault(rule.name, "")), Some(OrDefault(rule.description, "")),
             Some(OrDefault(rule.kind, "validation")), Some(OrDefault(rule.status, "active")),
             Some(OrDefault(rule.priority, "medium")),
             Some(Join(rule.conditions.GetOr([]), "\n")), Some(Join(rule.actions.GetOr([]), "\n")))
  }

  /** An AI draft can be submitted as it stands exactly when it came with a name: type, status and priority are always defaulted. */
  lemma AiDraftSubmittable(rule: AiRule)
    ensures CreateDraft(AiForm(rule)).Some? <==> Filled(rule.name)
  {
  }

  /**
   * `handleCreate` does not check an AI draft's type, status or priority
   * against the rule type's names: a drafted status that names no status (say
   * "enabled") passes handleCreate's guard, which would send it as it stands.
   * The form's required selects, which stop such a submit in the browser,
   * are not part of this model.
   */
  lemma AiStatusOutsideEnumeration(rule: AiRule)
    requires Filled(rule.name) && Filled(rule.status) && ParseStatus(rule.status.value).None?
    ensures CreateDraft(AiForm(rule)).Some?
    ensures CreateDraft(AiForm(rule)).value.status == rule.status
    ensures forall t :: StatusName(t) != CreateDraft(AiForm(rule)).value.status.value
  {
  }

  /** A draft with no fields at all becomes a validation rule, active, of medium priority, with no lines. */
  lemma AiEmptyDraftDefaults()
    ensures var form := AiForm(AiRule(None, None, None, None, None, None, None));
      && form.name == Some("") && form.kind == Some("validation") && form.status == Some("active")
      && form.priority == Some("medium") && Lines(form.conditions) == [] && Lines(form.actions) == []
  {
  }

  /** The AI's lists reach the submitted draft unchanged when they survive the newline round trip. */
  lemma AiListsReachDraft(rule: AiRule)
    requires Filled(rule.name)
    requires SurvivesLines(rule.conditions.GetOr([])) && SurvivesLines(rule.actions.GetOr([]))
    ensures CreateDraft(AiForm(rule)).Some?
    ensures CreateDraft(AiForm(rule)).value.conditions == rule.conditions.GetOr([])
    ensures CreateDraft(AiForm(rule)).value.actions == rule.actions.GetOr([])
  {
    LinesOfJoin(rule.conditions.GetOr([]));
    LinesOfJoin(rule.actions.GetOr([]));
  }

  /** The message shown when the endpoint answers without a rule. */
  function AiErrorText(message: string): (text: string)
    ensures text != ""
    ensures message != "" ==> text == message
  {
    if message != "" then message else "AI could not generate a rule."
  }

  /** `rules.filter(r => r.status === s).length`. */
  function CountStatus(rules: seq<BusinessRule>, s: RuleStatus): (n: nat)
    ensures n <= |rules|
  {
    if rules == [] then 0 else (if rules[0].status == s then 1 else 0) + CountStatus(rules[1..], s)
  }

  /** `rules.filter(r => r.priority === p).length`. */
  function CountPriority(rules: seq<BusinessRule>, p: Priority): (n: nat)
    ensures n <= |rules|
  {
    if rules == [] then 0 else (if rules[0].priority == p then 1 else 0) + CountPriority(rules[1..], p)
  }

  /** Every rule has exactly one status, so the status counts add up to the total. */
  lemma {:induction false} StatusCountsPartition(rules: seq<BusinessRule>)
    ensures CountStatus(rules, Active) + CountStatus(rules, Inactive) + CountStatus(rules, Draft) == |rules|
  {
    if rules != [] {
      StatusCountsPartition(rules[1..]);
    }
  }

  /** Every rule has exactly one priority, so the priority counts add up to the total. */
  lemma {:induction false} PriorityCountsPartition(rules: seq<BusinessRule>)
    ensures CountPriority(rules, Low) + CountPriority(rules, Medium) + CountPriority(rules, High) == |rules|
  {
    if rules != [] {
      PriorityCountsPartition(rules[1..]);
    }
  }

  /** The summary cards over the default rules: 3 in total, 2 active, 1 draft, 1 of high priority. */
  lemma DefaultSummary()
    ensures |DefaultRules| == 3
    ensures CountStatus(DefaultRules, Active) == 2
    ensures CountStatus(DefaultRules, Draft) == 1
    ensures CountPriority(DefaultRules, High) == 1
  {
    assert DefaultRules[1..][1..][1..] == [];
  }

  /** The page's state, with one method per handler. */
  class Page {
    var rules: seq<BusinessRule>
    var selected: Option<BusinessRule>
    var showCreateForm: bool
    var form: RuleForm
    var aiPrompt: string
    var aiError: string

    /** A form carrying an id belongs to the rule being edited, if one is. */
    predicate Valid()
      reads this
    {
      form.id.Some? && selected.Some? ==> form.id.value == selected.value.id
    }

    constructor ()
      ensures Valid()
      ensures rules == [] && selected.None? && !showCreateForm && form == EmptyForm
      ensures aiPrompt == "" && aiError == ""
    {
      rules := [];
      selected := None;
      showCreateForm := false;
      form := EmptyForm;
      aiPrompt := "";
      aiError := "";
    }

    /** `fetchRules` completed: the list shown is the one the endpoint returned. */
    method Loaded(fetched: seq<BusinessRule>)
      modifies this
      requires Valid()
      ensures Valid()
      ensures rules == fetched
      ensures selected == old(selected) && showCreateForm == old(showCreateForm) && form == old(form)
      ensures aiPrompt == old(aiPrompt) && aiError == old(aiError)
    {
      rules := fetched;
    }

    /** `handleFormChange`. */
    method ChangeField(f: FormField, value: string)
      modifies this
      requires Valid()
      ensures Valid()
      ensures form == WithField(old(form), f, value)
      ensures rules == old(rules) && selected == old(selected) && showCreateForm == old(showCreateForm)
      ensures aiPrompt == old(aiPrompt) && aiError == old(aiError)
    {
      form := WithField(form, f, value);
    }

    /** The "Create Rule" button: open the form, empty. */
    method OpenCreate()
      modifies this
      requires Valid()
      ensures Valid()
      ensures showCreateForm && form == EmptyForm
      ensures rules == old(rules) && selected == old(selected)
      ensures aiPrompt == old(aiPrompt) && aiError == old(aiError)
    {
      showCreateForm := true;
      form := EmptyForm;
    }

    /** `handleCreate`: send the draft when the guard lets it through, then close and clear the form. */
    method Create() returns (post: Option<RuleDraft>)
      modifies this
      requires Valid()
      ensures Valid()
      ensures post == CreateDraft(old(form))
      ensures post.Some? ==> !showCreateForm && form == EmptyForm
      ensures post.None? ==> showCreateForm == old(showCreateForm) && form == old(form)
      ensures rules == old(rules) && selected == old(selected)
      ensures aiPrompt == old(aiPrompt) && aiError == old(aiError)
    {
      post := CreateDraft(form);
      if post.Some? {
        showCreateForm := false;
        form := EmptyForm;
      }
    }

    /** `handleEdit`: select the rule and seed the form from it. */
    method Edit(rule: BusinessRule)
      modifies this
      requires Valid()
      ensures Valid()
      ensures selected == Some(rule) && form == EditForm(rule)
      ensures rules == old(rules) && showCreateForm == old(showCreateForm)
      ensures aiPrompt == old(aiPrompt) && aiError == old(aiError)
    {
      selected := Some(rule);
      form := EditForm(rule);
    }

    /** `handleSaveEdit`: without a selection nothing happens; otherwise PUT the merge, keeping the selected rule's id. */
    method SaveEdit() returns (put: Option<RuleDraft>)
      modifies this
      requires Valid()
      ensures Valid()
      ensures old(selected).None? ==> put.None? && selected == old(selected) && form == old(form)
      ensures old(selected).Some? ==> put == Some(Merge(old(selected).value, old(form)))
      ensures old(selected).Some? ==> put.value.id == Some(old(selected).value.id)
      ensures old(selected).Some? ==> selected.None? && form == EmptyForm
      ensures rules == old(rules) && showCreateForm == old(showCreateForm)
      ensures aiPrompt == old(aiPrompt) && aiError == old(aiError)
    {
      if selected.None? {
        put := None;
        return;
      }
      put := Some(Merge(selected.value, form));
      selected := None;
      form := EmptyForm;
    }

    /** `handleDelete`: send the id and drop the selection; the form is left as it was. */
    method Delete(id: string) returns (deleteId: string)
      modifies this
      requires Valid()
      ensures Valid()
      ensures deleteId == id && selected.None?
      ensures rules == old(rules) && form == old(form) && showCreateForm == old(showCreateForm)
      ensures aiPrompt == old(aiPrompt) && aiError == old(aiError)
    {
      deleteId := id;
      selected := None;
    }

    /** Typing in the AI prompt box. */
    method ChangePrompt(text: string)
      modifies this
      requires Valid()
      ensures Valid()
      ensures aiPrompt == text
      ensures rules == old(rules) && selected == old(selected) && form == old(form)
      ensures showCreateForm == old(showCreateForm) && aiError == old(aiError)
    {
      aiPrompt := text;
    }

    /**
     * `handleAIGenerate` once the endpoint has answered (`None`: the request
     * threw): a rule fills the form and opens it, anything else becomes the error shown.
     */
    method AiGenerate(answer: Option<AiResponse>)
      modifies this
      requires Valid()
      ensures Valid()
      ensures answer.None? ==> aiError == "Failed to contact AI service." && form == old(form) && showCreateForm == old(showCreateForm)
      ensures answer.Some? && answer.value.RuleReply? ==>
        aiError == "" && form == AiForm(answer.value.rule) && showCreateForm
      ensures answer.Some? && answer.value.ErrorReply? ==>
        aiError == AiErrorText(answer.value.message) && form == old(form) && showCreateForm == old(showCreateForm)
      ensures rules == old(rules) && selected == old(selected) && aiPrompt == old(aiPrompt)
    {
      aiError := "";
      match answer
      case None =>
        aiError := "Failed to contact AI service.";
      case Some(RuleReply(rule)) =>
        form := AiForm(rule);
        showCreateForm := true;
      case Some(ErrorReply(_, message, _, _)) =>
        aiError := AiErrorText(message);
    }
  }
}
