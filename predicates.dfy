/**
 * The filter tree the router builds: predicates on one stored property, combined by `and_`.
 * `app/models/predicates.py` is not part of this model; the tree below is read off its uses
 * in the router, and its serializer (`to_dict`) is left to a parameter of the callers.
 */
module Predicates {

  import opened Json

  /** The typed slot a predicate's operand is sent in (`FilterValueTypes`). */
  datatype ValueKind = ValueText | ValueBoolean

  datatype Value = Text(text: string) | Boolean(flag: bool)

  /** `Predicate(path, operator, value, kind)` as a leaf, `and_(*operands)` as an `And` node. */
  datatype Filter =
    | Leaf(path: seq<string>, operator: string, value: Value, kind: ValueKind)
    | And(operands: seq<Filter>)

  /** The operand sits in the slot its kind tag names. */
  predicate KindAgrees(v: Value, k: ValueKind) {
    match v
    case Text(_) => k == ValueText
    case Boolean(_) => k == ValueBoolean
  }

  /** Non-empty paths, operands in the slot of their kind, and no empty `And`. */
  predicate WellFormed(f: Filter)
    decreases f
  {
    match f
    case Leaf(path, _, v, k) => |path| > 0 && KindAgrees(v, k)
    case And(ops) => |ops| > 0 && forall i :: 0 <= i < |ops| ==> WellFormed(ops[i])
  }

  function ValueJson(v: Value): (j: JsonValue)
    ensures v.Text? ==> j == JString(v.text)
    ensures v.Boolean? ==> j == JBool(v.flag)
    ensures j != JNull
  {
    match v
    case Text(s) => JString(s)
    case Boolean(b) => JBool(b)
  }

  /** Distinct operands are distinct JSON values, so an `Equal` predicate tells them apart. */
  lemma ValueJsonInjective(u: Value, v: Value)
    ensures ValueJson(u) == ValueJson(v) <==> u == v
  {
  }

  /**
   * Whether a stored record (property name to JSON value) satisfies a filter, under the
   * reading that `Equal` on a one-segment path holds when the property is present and equal
   * to the operand, and an `And` holds when every operand does. Operators and nested paths
   * the router never builds are given no meaning here and hold of nothing.
   */
  predicate Holds(f: Filter, rec: map<string, JsonValue>)
    decreases f
  {
    match f
    case Leaf(path, op, v, _) =>
      op == "Equal" && |path| == 1 && path[0] in rec && rec[path[0]] == ValueJson(v)
    case And(ops) => forall i :: 0 <= i < |ops| ==> Holds(ops[i], rec)
  }

  /** `And` is a conjunction over the concatenation of its operand lists. */
  lemma {:induction false} HoldsAndAppend(xs: seq<Filter>, ys: seq<Filter>, rec: map<string, JsonValue>)
    ensures Holds(And(xs + ys), rec) <==> Holds(And(xs), rec) && Holds(And(ys), rec)
  {
    var zs := xs + ys;
    assert forall i :: 0 <= i < |xs| ==> zs[i] == xs[i];
    assert forall j :: 0 <= j < |ys| ==> zs[|xs| + j] == ys[j];
    if Holds(And(xs), rec) && Holds(And(ys), rec) {
      forall i | 0 <= i < |zs| ensures Holds(zs[i], rec) {
        if i >= |xs| {
          assert zs[i] == ys[i - |xs|];
        }
      }
    }
  }

  /** An `And` of one operand means that operand: `and_(p)` is not collapsed, but it selects the same records. */
  lemma HoldsSingleton(f: Filter, rec: map<string, JsonValue>)
    ensures Holds(And([f]), rec) <==> Holds(f, rec)
  {
    assert [f][0] == f;
  }
}
