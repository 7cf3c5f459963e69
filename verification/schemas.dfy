/**
 * The row schemas (src/types/schemas.ts) as data: each schema lists its
 * fields, what each field's value must be, and whether it may be left out.
 * A record conforms when every field is satisfied; `Issues` lists the keys of
 * the fields that are not, as a schema check reports them.
 */
module Schemas {
  import opened Records

  /** What a field demands of its value. */
  datatype Constraint =
    | AnyText                                  // z.string()
    | NonEmptyText                             // z.string().min(1)
    | WholeNumber(min: int, hasMax: bool, max: int)  // z.number().int().min(min), .max(max) when hasMax

  datatype FieldSpec = FieldSpec(key: string, constraint: Constraint, optional: bool)

  type Schema = seq<FieldSpec>

  predicate Satisfies(v: Cell, c: Constraint)
  {
    match c
    case AnyText => v.Str?
    case NonEmptyText => v.Str? && |v.s| >= 1
    case WholeNumber(lo, hasMax, hi) =>
      v.Num? && v.x == v.x.Floor as real && v.x >= lo as real && (hasMax ==> v.x <= hi as real)
  }

  /** An optional field may be absent (undefined); otherwise its value must satisfy the constraint. */
  predicate FieldOk(r: Record, f: FieldSpec)
  {
    var v := Get(r, f.key);
    (f.optional && v == Undefined) || Satisfies(v, f.constraint)
  }

  predicate Conforms(r: Record, schema: Schema)
  {
    forall i :: 0 <= i < |schema| ==> FieldOk(r, schema[i])
  }

  /** The keys of the fields the record fails, every one of them; none exactly when it conforms. */
  function Issues(r: Record, schema: Schema): (keys: seq<string>)
    ensures keys == [] <==> Conforms(r, schema)
    ensures forall k :: k in keys ==> exists i :: 0 <= i < |schema| && schema[i].key == k && !FieldOk(r, schema[i])
    ensures forall i :: 0 <= i < |schema| && !FieldOk(r, schema[i]) ==> schema[i].key in keys
  {
    if schema == [] then []
    else
      var rest := Issues(r, schema[1..]);
      assert Conforms(r, schema) <==> FieldOk(r, schema[0]) && Conforms(r, schema[1..]) by {
        if FieldOk(r, schema[0]) && Conforms(r, schema[1..]) {
          forall i | 0 <= i < |schema| ensures FieldOk(r, schema[i]) {
            if i > 0 {
              assert schema[i] == schema[1..][i - 1];
            }
          }
        }
      }
      assert forall k :: k in rest ==> exists i :: 0 <= i < |schema| && schema[i].key == k && !FieldOk(r, schema[i]) by {
        forall k | k in rest ensures exists i :: 0 <= i < |schema| && schema[i].key == k && !FieldOk(r, schema[i]) {
          var j :| 0 <= j < |schema[1..]| && schema[1..][j].key == k && !FieldOk(r, schema[1..][j]);
          assert schema[j + 1] == schema[1..][j];
        }
      }
      assert forall i :: 1 <= i < |schema| && !FieldOk(r, schema[i]) ==> schema[i].key in rest by {
        forall i | 1 <= i < |schema| && !FieldOk(r, schema[i]) ensures schema[i].key in rest {
          assert schema[i] == schema[1..][i - 1];
        }
      }
      if FieldOk(r, schema[0]) then rest else [schema[0].key] + rest
  }

  const ClientSchema: Schema := [
    FieldSpec("ClientID", NonEmptyText, false),
    FieldSpec("ClientName", NonEmptyText, false),
    FieldSpec("PriorityLevel", WholeNumber(1, true, 5), false),
    FieldSpec("RequestedTaskIDs", AnyText, false),
    FieldSpec("GroupTag", AnyText, true),
    FieldSpec("AttributesJSON", AnyText, true)
  ]

  const WorkerSchema: Schema := [
    FieldSpec("WorkerID", NonEmptyText, false),
    FieldSpec("WorkerName", NonEmptyText, false),
    FieldSpec("Skills", AnyText, false),
    FieldSpec("AvailableSlots", AnyText, false),
    FieldSpec("MaxLoadPerPhase", WholeNumber(1, false, 0), false),
    FieldSpec("WorkerGroup", AnyText, true),
    FieldSpec("QualificationLevel", AnyText, true)
  ]

  const TaskSchema: Schema := [
    FieldSpec("TaskID", NonEmptyText, false),
    FieldSpec("TaskName", NonEmptyText, false),
    FieldSpec("Category", AnyText, true),
    FieldSpec("Duration", WholeNumber(1, false, 0), false),
    FieldSpec("RequiredSkills", AnyText, false),
    FieldSpec("PreferredPhases", AnyText, false),
    FieldSpec("MaxConcurrent", WholeNumber(1, false, 0), false)
  ]

  predicate IsNonEmptyText(v: Cell) { v.Str? && v.s != "" }
  predicate IsOptionalText(v: Cell) { v == Undefined || v.Str? }
  predicate IsWholeAtLeastOne(v: Cell) { v.Num? && v.x == v.x.Floor as real && v.x >= 1.0 }

  /** A client row: non-empty id and name, a whole priority 1..5, text task ids, optional tag and attributes. */
  lemma ClientConformance(r: Record)
    ensures Conforms(r, ClientSchema) <==>
      && IsNonEmptyText(Get(r, "ClientID")) && IsNonEmptyText(Get(r, "ClientName"))
      && Get(r, "PriorityLevel").Num?
      && Get(r, "PriorityLevel").x in {1.0, 2.0, 3.0, 4.0, 5.0}
      && Get(r, "RequestedTaskIDs").Str?
      && IsOptionalText(Get(r, "GroupTag")) && IsOptionalText(Get(r, "AttributesJSON"))
  {
    var v := Get(r, "PriorityLevel");
    if v.Num? && v.x == v.x.Floor as real && 1.0 <= v.x <= 5.0 {
      var n := v.x.Floor;
      assert n in {1, 2, 3, 4, 5};
    }
    assert Conforms(r, ClientSchema) <==>
      FieldOk(r, ClientSchema[0]) && FieldOk(r, ClientSchema[1]) && FieldOk(r, ClientSchema[2])
      && FieldOk(r, ClientSchema[3]) && FieldOk(r, ClientSchema[4]) && FieldOk(r, ClientSchema[5]);
  }

  /** A worker row: non-empty id and name, text skills and slots, a whole load of at least 1, optional group and level. */
  lemma WorkerConformance(r: Record)
    ensures Conforms(r, WorkerSchema) <==>
      && IsNonEmptyText(Get(r, "WorkerID")) && IsNonEmptyText(Get(r, "WorkerName"))
      && Get(r, "Skills").Str? && Get(r, "AvailableSlots").Str?
      && IsWholeAtLeastOne(Get(r, "MaxLoadPerPhase"))
      && IsOptionalText(Get(r, "WorkerGroup")) && IsOptionalText(Get(r, "QualificationLevel"))
  {
    assert Conforms(r, WorkerSchema) <==>
      FieldOk(r, WorkerSchema[0]) && FieldOk(r, WorkerSchema[1]) && FieldOk(r, WorkerSchema[2])
      && FieldOk(r, WorkerSchema[3]) && FieldOk(r, WorkerSchema[4]) && FieldOk(r, WorkerSchema[5])
      && FieldOk(r, WorkerSchema[6]);
  }

  /** A task row: non-empty id and name, optional category, whole duration and concurrency of at least 1, text skills and phases. */
  lemma TaskConformance(r: Record)
    ensures Conforms(r, TaskSchema) <==>
      && IsNonEmptyText(Get(r, "TaskID")) && IsNonEmptyText(Get(r, "TaskName"))
      && IsOptionalText(Get(r, "Category"))
      && IsWholeAtLeastOne(Get(r, "Duration"))
      && Get(r, "RequiredSkills").Str? && Get(r, "PreferredPhases").Str?
      && IsWholeAtLeastOne(Get(r, "MaxConcurrent"))
  {
    assert Conforms(r, TaskSchema) <==>
      FieldOk(r, TaskSchema[0]) && FieldOk(r, TaskSchema[1]) && FieldOk(r, TaskSchema[2])
      && FieldOk(r, TaskSchema[3]) && FieldOk(r, TaskSchema[4]) && FieldOk(r, TaskSchema[5])
      && FieldOk(r, TaskSchema[6]);
  }

  /** No two fields of the schema share a key. */
  predicate DistinctKeys(schema: Schema)
  {
    forall i, j :: 0 <= i < j < |schema| ==> schema[i].key != schema[j].key
  }

  /** Giving one field of a conforming row a value that meets that field's constraint keeps the row conforming. */
  lemma SetKeepsConformance(r: Record, schema: Schema, i: nat, v: Cell)
    requires DistinctKeys(schema) && i < |schema|
    requires Conforms(r, schema) && Satisfies(v, schema[i].constraint)
    ensures Conforms(Set(r, schema[i].key, v), schema)
  {
    SetGet(r, schema[i].key, v);
    forall j | 0 <= j < |schema| ensures FieldOk(Set(r, schema[i].key, v), schema[j]) {
      if j != i {
        assert schema[j].key != schema[i].key;
      }
    }
  }

  /** Duration, MaxConcurrent and MaxLoadPerPhase have no upper bound: any whole n >= 1 is accepted. */
  lemma NoUpperBound(task: Record, worker: Record, n: nat)
    requires n >= 1
    requires Conforms(task, TaskSchema) && Conforms(worker, WorkerSchema)
    ensures Conforms(Set(task, "Duration", Num(n as real)), TaskSchema)
    ensures Conforms(Set(task, "MaxConcurrent", Num(n as real)), TaskSchema)
    ensures Conforms(Set(worker, "MaxLoadPerPhase", Num(n as real)), WorkerSchema)
  {
    assert DistinctKeys(TaskSchema) && DistinctKeys(WorkerSchema);
    SetKeepsConformance(task, TaskSchema, 3, Num(n as real));
    SetKeepsConformance(task, TaskSchema, 6, Num(n as real));
    SetKeepsConformance(worker, WorkerSchema, 4, Num(n as real));
  }

  /** A priority of 6 (or 0, or 2.5) is refused however good the rest of the client row is. */
  lemma PriorityOutOfRange(r: Record)
    ensures !Conforms(Set(r, "PriorityLevel", Num(6.0)), ClientSchema)
    ensures !Conforms(Set(r, "PriorityLevel", Num(0.0)), ClientSchema)
    ensures !Conforms(Set(r, "PriorityLevel", Num(2.5)), ClientSchema)
  {
    SetGet(r, "PriorityLevel", Num(6.0));
    SetGet(r, "PriorityLevel", Num(0.0));
    SetGet(r, "PriorityLevel", Num(2.5));
    ClientConformance(Set(r, "PriorityLevel", Num(6.0)));
    ClientConformance(Set(r, "PriorityLevel", Num(0.0)));
    ClientConformance(Set(r, "PriorityLevel", Num(2.5)));
  }
}
