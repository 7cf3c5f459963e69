/**
 * The rules endpoint (src/app/api/rules/route.ts). Each request reads the
 * whole list from `rules.json`, changes it and writes it back; the file is the
 * state of class RuleStore. The request's JSON body arrives as a rule, and the
 * creation timestamp is a parameter.
 */
module RulesApi {
  import opened Wrappers
  import opened Rules

  /** What `rules.json` holds between requests. */
  datatype RulesFile = Missing | Unparseable | Stored(rules: seq<BusinessRule>)

  /** The answer to a PUT: the whole new list, or 404 'Rule not found'. */
  datatype PutResponse = Updated(rules: seq<BusinessRule>) | RuleNotFound

  /** `readRules`: a missing or unparseable file reads as the empty list. */
  function ReadRules(f: RulesFile): (rules: seq<BusinessRule>)
    ensures f.Stored? ==> rules == f.rules
    ensures !f.Stored? ==> rules == []
  {
    if f.Stored? then f.rules else []
  }

  /** The position of the first rule carrying `id`, if there is one. */
  function FirstIndex(rules: seq<BusinessRule>, id: string): (r: Option<nat>)
    ensures r.None? <==> forall j :: 0 <= j < |rules| ==> rules[j].id != id
    ensures r.Some? ==> r.value < |rules| && rules[r.value].id == id
    ensures r.Some? ==> forall j :: 0 <= j < r.value ==> rules[j].id != id
  {
    if rules == [] then None
    else if rules[0].id == id then Some(0)
    else match FirstIndex(rules[1..], id)
      case None => None
      case Some(i) => Some(i + 1)
  }

  /** `rules.findIndex(r => r.id === id)`: the first match, or -1. */
  method FindIndex(rules: seq<BusinessRule>, id: string) returns (idx: int)
    ensures idx == -1 <==> forall j :: 0 <= j < |rules| ==> rules[j].id != id
    ensures idx != -1 ==> 0 <= idx < |rules| && rules[idx].id == id
    ensures idx != -1 ==> forall j :: 0 <= j < idx ==> rules[j].id != id
  {
    idx := 0;
    while idx < |rules|
      invariant 0 <= idx <= |rules|
      invariant forall j :: 0 <= j < idx ==> rules[j].id != id
    {
      if rules[idx].id == id {
        return;
      }
      idx := idx + 1;
    }
    idx := -1;
  }

  /**
   * What a PUT does to the list: the first rule with the body's id is replaced
   * wholesale and every other position is left alone; with no such rule there
   * is nothing to write.
   */
  function ReplaceFirst(rules: seq<BusinessRule>, updated: BusinessRule): (r: Option<seq<BusinessRule>>)
    ensures r.None? <==> forall j :: 0 <= j < |rules| ==> rules[j].id != updated.id
    ensures r.Some? ==> |r.value| == |rules|
    ensures r.Some? ==> exists i :: (0 <= i < |rules| && rules[i].id == updated.id
                                     && (forall j :: 0 <= j < i ==> rules[j].id != updated.id)
                                     && r.value[i] == updated
                                     && (forall j :: 0 <= j < |rules| && j != i ==> r.value[j] == rules[j]))
  {
    match FirstIndex(rules, updated.id)
    case None => None
    case Some(i) => Some(rules[i := updated])
  }

  /** `rules.filter(r => r.id !== id)`. */
  function RemoveId(rules: seq<BusinessRule>, id: string): (r: seq<BusinessRule>)
    ensures |r| <= |rules|
    ensures forall x :: x in r <==> x in rules && x.id != id
  {
    if rules == [] then []
    else if rules[0].id == id then RemoveId(rules[1..], id)
    else [rules[0]] + RemoveId(rules[1..], id)
  }

  /** How many rules carry `id`. */
  function CountId(rules: seq<BusinessRule>, id: string): nat
  {
    if rules == [] then 0
    else (if rules[0].id == id then 1 else 0) + CountId(rules[1..], id)
  }

  /** Filtering works piecewise, so it keeps the surviving rules in their order. */
  lemma {:induction false} RemoveIdConcat(a: seq<BusinessRule>, b: seq<BusinessRule>, id: string)
    ensures RemoveId(a + b, id) == RemoveId(a, id) + RemoveId(b, id)
  {
    if a != [] {
      assert (a + b)[0] == a[0] && (a + b)[1..] == a[1..] + b;
      RemoveIdConcat(a[1..], b, id);
    } else {
      assert a + b == b;
    }
  }

  /** Every copy of the id goes: the list shrinks by exactly the number of rules carrying it. */
  lemma {:induction false} RemoveIdCount(rules: seq<BusinessRule>, id: string)
    ensures |RemoveId(rules, id)| + CountId(rules, id) == |rules|
  {
    if rules != [] {
      RemoveIdCount(rules[1..], id);
    }
  }

  /** Deleting an id nobody carries changes nothing. */
  lemma {:induction false} RemoveAbsentId(rules: seq<BusinessRule>, id: string)
    requires forall j :: 0 <= j < |rules| ==> rules[j].id != id
    ensures RemoveId(rules, id) == rules
  {
    if rules != [] {
      RemoveAbsentId(rules[1..], id);
      assert [rules[0]] + rules[1..] == rules;
    }
  }

  /** Deleting twice is deleting once. */
  lemma RemoveIdIdempotent(rules: seq<BusinessRule>, id: string)
    ensures RemoveId(RemoveId(rules, id), id) == RemoveId(rules, id)
  {
    var once := RemoveId(rules, id);
    forall j | 0 <= j < |once| ensures once[j].id != id {
      assert once[j] in once;
    }
    RemoveAbsentId(once, id);
  }

  /** A PUT never creates a duplicate id: a list with distinct ids keeps them distinct. */
  lemma ReplaceKeepsDistinctIds(rules: seq<BusinessRule>, updated: BusinessRule)
    requires DistinctIds(rules)
    requires ReplaceFirst(rules, updated).Some?
    ensures DistinctIds(ReplaceFirst(rules, updated).value)
  {
    var r := ReplaceFirst(rules, updated).value;
    var i :| 0 <= i < |rules| && rules[i].id == updated.id && r[i] == updated
      && (forall j :: 0 <= j < |rules| && j != i ==> r[j] == rules[j]);
    forall a, b | 0 <= a < b < |r| ensures r[a].id != r[b].id {
      assert r[a].id == rules[a].id && r[b].id == rules[b].id;
    }
  }

  /** A POST keeps ids distinct when the fresh id is not in use (the model does not claim timestamps are fresh). */
  lemma AppendKeepsDistinctIds(rules: seq<BusinessRule>, body: BusinessRule, stamp: string)
    requires DistinctIds(rules)
    requires forall j :: 0 <= j < |rules| ==> rules[j].id != stamp
    ensures DistinctIds(rules + [body.(id := stamp)])
  {
  }

  /** The file behind the endpoint, with one method per HTTP verb. */
  class RuleStore {
    var file: RulesFile

    constructor (initial: RulesFile)
      ensures file == initial
    {
      file := initial;
    }

    /** GET: the stored list, or [] when the file is missing or unparseable. */
    method Get() returns (resp: seq<BusinessRule>)
      ensures resp == ReadRules(file)
    {
      resp := ReadRules(file);
    }

    /** POST: the body, with its id overwritten by the timestamp, is appended and the list written back. */
    method Post(body: BusinessRule, stamp: string) returns (resp: seq<BusinessRule>)
      modifies this
      ensures |resp| == |ReadRules(old(file))| + 1
      ensures resp[..|resp| - 1] == ReadRules(old(file))
      ensures resp[|resp| - 1] == body.(id := stamp)
      ensures file == Stored(resp)
    {
      var rules := ReadRules(file);
      rules := rules + [body.(id := stamp)];
      file := Stored(rules);
      resp := rules;
    }

    /** PUT: replace the first rule with the body's id; without one, answer 404 and leave the file alone. */
    method Put(updated: BusinessRule) returns (resp: PutResponse)
      modifies this
      ensures ReplaceFirst(ReadRules(old(file)), updated).None? ==> resp == RuleNotFound && file == old(file)
      ensures ReplaceFirst(ReadRules(old(file)), updated).Some? ==>
        var rules := ReplaceFirst(ReadRules(old(file)), updated).value;
        resp == Updated(rules) && file == Stored(rules)
    {
      var rules := ReadRules(file);
      var idx := FindIndex(rules, updated.id);
      if idx != -1 {
        rules := rules[idx := updated];
        file := Stored(rules);
        resp := Updated(rules);
      } else {
        resp := RuleNotFound;
      }
    }

    /** DELETE: keep the rules whose id differs and write them back. */
    method Delete(id: string) returns (resp: seq<BusinessRule>)
      modifies this
      ensures resp == RemoveId(ReadRules(old(file)), id)
      ensures file == Stored(resp)
    {
      var rules := ReadRules(file);
      var filtered := RemoveId(rules, id);
      file := Stored(filtered);
      resp := filtered;
    }
  }
}
