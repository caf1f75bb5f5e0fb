/**
 * An in-memory model of the host's option-variable table (Maya's
 * `optionVar` command), which the store reaches for every operation.
 *
 * The host's behaviour is an assumption of this model:
 * - a value flag (`stringValue`, `intValue`, `floatValue`) replaces whatever
 *   the key held with a scalar;
 * - an append flag (`*ValueAppend`) turns a scalar of the same kind into a
 *   two-element array and extends an array of the same kind; on an absent key
 *   or one of another kind it starts a one-element array of the new kind;
 * - `clearArray` removes an array entry and leaves a scalar entry alone;
 * - `remove` removes any entry;
 * - a query of an absent key returns a fixed host-defined value (`missing`).
 */
module OptionVarHost {
  import opened PyValues

  /** What the host holds under one key. */
  datatype Stored = ScalarVar(value: Scalar) | ArrayVar(kind: Kind, items: seq<Scalar>)

  /** The flags of `optionVar` that change the table. */
  datatype Command =
    | SetValue(key: string, value: Scalar)     // stringValue / intValue / floatValue
    | AppendValue(key: string, value: Scalar)  // stringValueAppend / intValueAppend / floatValueAppend
    | ClearArray(key: string)                  // clearArray
    | Remove(key: string)                      // remove

  type VarMap = map<string, Stored>

  function StoredKind(st: Stored): Kind
  {
    match st
    case ScalarVar(v) => KindOf(v)
    case ArrayVar(k, _) => k
  }

  /** An array entry is non-empty and every element has the array's kind. */
  predicate Homogeneous(st: Stored)
  {
    st.ArrayVar? ==>
      |st.items| > 0 && forall j :: 0 <= j < |st.items| ==> KindOf(st.items[j]) == st.kind
  }

  predicate TableValid(m: VarMap)
  {
    forall k :: k in m ==> Homogeneous(m[k])
  }

  /** The entry an append of `v` leaves behind, given what the key held before. */
  function Appended(prior: Option<Stored>, v: Scalar): Stored
  {
    match prior
    case Some(ScalarVar(w)) =>
      if KindOf(w) == KindOf(v) then ArrayVar(KindOf(v), [w, v]) else ArrayVar(KindOf(v), [v])
    case Some(ArrayVar(k, items)) =>
      if k == KindOf(v) then ArrayVar(k, items + [v]) else ArrayVar(KindOf(v), [v])
    case None => ArrayVar(KindOf(v), [v])
  }

  function Apply(m: VarMap, c: Command): VarMap
  {
    match c
    case SetValue(k, v) => m[k := ScalarVar(v)]
    case AppendValue(k, v) => m[k := Appended(if k in m then Some(m[k]) else None, v)]
    case ClearArray(k) => if k in m && m[k].ArrayVar? then m - {k} else m
    case Remove(k) => m - {k}
  }

  /** The table after the commands `cs`, issued in order. */
  function ApplyAll(m: VarMap, cs: seq<Command>): VarMap
  {
    if cs == [] then m else Apply(ApplyAll(m, cs[..|cs| - 1]), cs[|cs| - 1])
  }

  /** What `optionVar(q=key)` returns: a scalar, a list of scalars, or the host's value for an absent key. */
  function QueryResult(m: VarMap, missing: PyValue, key: string): PyValue
  {
    if key !in m then missing
    else match m[key]
      case ScalarVar(v) => ToPy(v)
      case ArrayVar(_, items) => PyList(ToPyAll(items))
  }

  /** A query result seen as the list it would extend: a list's elements, or a scalar alone. */
  function AsElems(q: PyValue): seq<PyValue>
  {
    if q.PyList? then q.elems else [q]
  }

  lemma ApplyAllSnoc(m: VarMap, cs: seq<Command>, c: Command)
    ensures ApplyAll(m, cs + [c]) == Apply(ApplyAll(m, cs), c)
  {
  }

  /** Every command keeps every array entry homogeneous and non-empty. */
  lemma ApplyKeepsTableValid(m: VarMap, c: Command)
    requires TableValid(m)
    ensures TableValid(Apply(m, c))
  {
  }

  lemma {:induction false} ApplyAllKeepsTableValid(m: VarMap, cs: seq<Command>)
    requires TableValid(m)
    ensures TableValid(ApplyAll(m, cs))
  {
    if cs != [] {
      ApplyAllKeepsTableValid(m, cs[..|cs| - 1]);
      ApplyKeepsTableValid(ApplyAll(m, cs[..|cs| - 1]), cs[|cs| - 1]);
    }
  }

  /** Commands addressed to other keys leave the entry of `k` as it was. */
  lemma {:induction false} ApplyAllElsewhere(m: VarMap, cs: seq<Command>, k: string)
    requires forall i :: 0 <= i < |cs| ==> cs[i].key != k
    ensures k in ApplyAll(m, cs) <==> k in m
    ensures k in m ==> ApplyAll(m, cs)[k] == m[k]
  {
    if cs != [] {
      ApplyAllElsewhere(m, cs[..|cs| - 1], k);
    }
  }

  /**
   * Appending a scalar of the entry's own kind extends what a query returns
   * by that one value: a scalar becomes a two-element list, a list grows at
   * its end.
   */
  lemma AppendExtendsQuery(m: VarMap, missing: PyValue, key: string, v: Scalar)
    requires key in m && StoredKind(m[key]) == KindOf(v)
    ensures QueryResult(Apply(m, AppendValue(key, v)), missing, key)
         == PyList(AsElems(QueryResult(m, missing, key)) + [ToPy(v)])
  {
  }

  /** The host's option-variable table. Only commands that change it are recorded in `log`. */
  class Table {
    var vars: VarMap
    var log: seq<Command>
    const missing: PyValue

    constructor (missing: PyValue)
      ensures vars == map[] && log == [] && this.missing == missing
    {
      vars := map[];
      log := [];
      this.missing := missing;
    }

    /** `optionVar` with one of the flags that change the table. */
    method Issue(c: Command)
      modifies this
      ensures vars == Apply(old(vars), c)
      ensures log == old(log) + [c]
    {
      vars := Apply(vars, c);
      log := log + [c];
    }

    /** `optionVar(exists=key)`. */
    method Exists(key: string) returns (b: bool)
      ensures b <==> key in vars
    {
      b := key in vars;
    }

    /** `optionVar(q=key)`. */
    method Query(key: string) returns (v: PyValue)
      ensures key !in vars ==> v == missing
      ensures key in vars && vars[key].ScalarVar? ==> v == ToPy(vars[key].value)
      ensures key in vars && vars[key].ArrayVar? ==> v == PyList(ToPyAll(vars[key].items))
    {
      v := QueryResult(vars, missing, key);
    }

    /** `optionVar(list=True)`: every key once, in an order the host chooses. */
    method ListKeys() returns (ks: seq<string>)
      ensures forall k :: k in ks <==> k in vars
      ensures forall i, j :: 0 <= i < j < |ks| ==> ks[i] != ks[j]
    {
      ks := [];
      var rest := vars.Keys;
      while rest != {}
        invariant rest <= vars.Keys
        invariant forall k :: k in ks <==> k in vars && k !in rest
        invariant forall i, j :: 0 <= i < j < |ks| ==> ks[i] != ks[j]
        decreases rest
      {
        var k :| k in rest;
        ks := ks + [k];
        rest := rest - {k};
      }
    }
  }
}
