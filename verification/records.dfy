/**
 * Ingested rows as JavaScript sees them: a record is a plain object whose
 * properties keep their insertion order, written here as a list of entries.
 * Assigning to a property that exists replaces its value in place; assigning
 * to a new one appends it. Objects have no prototype here: `__proto__` is an
 * ordinary name, and a name the object does not hold reads as undefined.
 */
module Records {
  import Text

  /** The values a spreadsheet or CSV cell can hold once it reaches JavaScript. */
  datatype Cell = Undefined | Null | Bool(b: bool) | Num(x: real) | Str(s: string)

  /** JavaScript truthiness: false, 0, "", null and undefined are falsy. */
  predicate Truthy(c: Cell)
  {
    match c
    case Bool(b) => b
    case Num(x) => x != 0.0
    case Str(s) => s != ""
    case _ => false
  }

  /** `String(c)`; a number is written by its whole part, so fractions are not rendered exactly. */
  function CellString(c: Cell): string
  {
    match c
    case Str(s) => s
    case Num(x) => Text.IntToString(x.Floor)
    case Bool(b) => if b then "true" else "false"
    case Null => "null"
    case Undefined => "undefined"
  }

  datatype Entry = Entry(key: string, value: Cell)

  type Record = seq<Entry>

  /** `Object.keys(r)`, in insertion order. */
  function Keys(r: Record): (ks: seq<string>)
    ensures |ks| == |r|
  {
    seq(|r|, i requires 0 <= i < |r| => r[i].key)
  }

  /** No property name occurs twice, as in every JavaScript object. */
  predicate WellFormed(r: Record)
  {
    forall i, j :: 0 <= i < j < |r| ==> r[i].key != r[j].key
  }

  /** `r[k]`: the value of property `k`, or undefined when there is none. */
  function Get(r: Record, k: string): Cell
  {
    if r == [] then Undefined
    else if r[0].key == k then r[0].value
    else Get(r[1..], k)
  }

  /**
   * `{ ...r, [k]: v }` (equally `r[k] = v`): the entry named `k` gets the new
   * value where it stands, or a new entry goes to the end.
   */
  function Set(r: Record, k: string, v: Cell): Record
  {
    if r == [] then [Entry(k, v)]
    else if r[0].key == k then [Entry(k, v)] + r[1..]
    else [r[0]] + Set(r[1..], k, v)
  }

  lemma KeysCons(r: Record)
    requires r != []
    ensures Keys(r) == [r[0].key] + Keys(r[1..])
  {
  }

  /** A property the record does not have reads as undefined. */
  lemma {:induction false} GetAbsent(r: Record, k: string)
    requires k !in Keys(r)
    ensures Get(r, k) == Undefined
  {
    if r != [] {
      KeysCons(r);
      GetAbsent(r[1..], k);
    }
  }

  /** After the assignment, `k` reads as `v` and every other property reads as before. */
  lemma {:induction false} SetGet(r: Record, k: string, v: Cell)
    ensures Get(Set(r, k, v), k) == v
    ensures forall k' :: k' != k ==> Get(Set(r, k, v), k') == Get(r, k')
  {
    if r != [] && r[0].key != k {
      SetGet(r[1..], k, v);
    }
  }

  /** The names stay where they were; a new name is appended. */
  lemma {:induction false} SetKeys(r: Record, k: string, v: Cell)
    ensures Keys(Set(r, k, v)) == if k in Keys(r) then Keys(r) else Keys(r) + [k]
  {
    if r != [] {
      KeysCons(r);
      if r[0].key == k {
        var r' := Set(r, k, v);
        assert forall i :: 0 <= i < |r| ==> Keys(r')[i] == Keys(r)[i];
      } else {
        SetKeys(r[1..], k, v);
        KeysCons(Set(r, k, v));
      }
    }
  }

  /** Assignment never duplicates a property name. */
  lemma {:induction false} SetWellFormed(r: Record, k: string, v: Cell)
    requires WellFormed(r)
    ensures WellFormed(Set(r, k, v))
  {
    if r != [] && r[0].key != k {
      var tail := Set(r[1..], k, v);
      assert WellFormed(r[1..]);
      SetWellFormed(r[1..], k, v);
      SetKeys(r[1..], k, v);
      KeysCons(r);
      PrependWellFormed(r[0], tail);
    } else if r != [] {
      var r' := Set(r, k, v);
      assert forall i :: 0 <= i < |r| ==> r'[i].key == r[i].key;
    }
  }

  /** Putting a fresh name in front of a well-formed record keeps it well-formed. */
  lemma PrependWellFormed(e: Entry, t: Record)
    requires WellFormed(t) && e.key !in Keys(t)
    ensures WellFormed([e] + t)
  {
    var r := [e] + t;
    forall i, j | 0 <= i < j < |r| ensures r[i].key != r[j].key {
      if i == 0 {
        assert Keys(t)[j - 1] == r[j].key;
      }
    }
  }

  /** Assigning a property the value it already holds gives back the same record. */
  lemma {:induction false} SetUnchanged(r: Record, k: string)
    requires k in Keys(r)
    ensures Set(r, k, Get(r, k)) == r
  {
    KeysCons(r);
    if r[0].key != k {
      SetUnchanged(r[1..], k);
    }
  }
}
