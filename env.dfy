/**
 * The typed option-variable layer: `OptionVarList`, a list tagged with the
 * key it was read from, and `OptionVarDict`, a dictionary-like view of the
 * host's option variables that picks each value's datatype from its runtime
 * type. Both talk to the host table `host`, which every `OptionVarDict` and
 * every list read from it share.
 */
module Env {
  import opened PyValues
  import opened OptionVarHost

  datatype PyError = TypeError(message: string) | NameError(name: string)

  /** How a call ends: it returns, or it raises. */
  datatype Outcome = Returned | Raised(error: PyError)

  /** The commands a write sends to the host, in order, and how the write ends. */
  datatype Plan = Plan(calls: seq<Command>, outcome: Outcome)

  const SAME_DATATYPE := "all elements in list must be of the same datatype"
  const UNSUPPORTED_VALUE := "unsupported datatype: strings, ints, float, lists, and their subclasses are supported"
  const UNSUPPORTED_APPEND := "unsupported datatype: strings, ints, floats and their subclasses are supported"

  /** The length of the longest prefix of `xs` whose elements all have kind `k`. */
  function MatchingRun(xs: seq<PyValue>, k: Kind): (n: nat)
    ensures n <= |xs|
    ensures forall j :: 0 <= j < n ==> HasKind(xs[j], k)
    ensures n < |xs| ==> !HasKind(xs[n], k)
  {
    if xs == [] || !HasKind(xs[0], k) then 0 else 1 + MatchingRun(xs[1..], k)
  }

  /** Writing a list of scalars: a value write of the first ("force to this datatype"), then one append per later one. */
  function WriteCalls(key: string, ys: seq<Scalar>): seq<Command>
    requires |ys| > 0
  {
    [SetValue(key, ys[0])] + seq(|ys| - 1, j requires 0 <= j < |ys| - 1 => AppendValue(key, ys[j + 1]))
  }

  /** What the host holds after `WriteCalls(key, ys)` on a homogeneous `ys`. */
  function StoredList(ys: seq<Scalar>): Stored
    requires |ys| > 0
  {
    if |ys| == 1 then ScalarVar(ys[0]) else ArrayVar(KindOf(ys[0]), ys)
  }

  /**
   * `__setitem__` on a non-empty list whose first element has a scalar kind:
   * the first element and the run of same-kind elements after it are
   * written; the first element of another kind raises TypeError.
   */
  function ListPlan(key: string, elems: seq<PyValue>): (p: Plan)
    requires |elems| > 0 && Classify(elems[0]).Some?
    ensures 1 <= |p.calls| <= |elems| && p.calls[0] == SetValue(key, Classify(elems[0]).value)
    ensures forall i :: 1 <= i < |p.calls| ==>
      HasKind(elems[i], KindOf(Classify(elems[0]).value)) && p.calls[i] == AppendValue(key, Classify(elems[i]).value)
    ensures p.outcome == Returned <==> |p.calls| == |elems|
    ensures p.outcome != Returned ==>
      p.outcome == Raised(TypeError(SAME_DATATYPE)) && !HasKind(elems[|p.calls|], KindOf(Classify(elems[0]).value))
  {
    var k := KindOf(Classify(elems[0]).value);
    var n := 1 + MatchingRun(elems[1..], k);
    assert forall j :: 0 <= j < n ==> Classify(elems[j]).Some?;
    Plan(WriteCalls(key, ScalarsOf(elems[..n])),
         if n == |elems| then Returned else Raised(TypeError(SAME_DATATYPE)))
  }

  /**
   * The commands `__setitem__(key, val)` sends and how it ends; the float
   * list branch checks elements against `float`. Every command it sends is
   * addressed to `key`.
   */
  function SetItemPlan(key: string, val: PyValue): (p: Plan)
    ensures forall i :: 0 <= i < |p.calls| ==> p.calls[i].key == key
  {
    match Classify(val)
    case Some(s) => Plan([SetValue(key, s)], Returned)
    case None =>
      if val.PyList? && |val.elems| == 0 then Plan([ClearArray(key)], Returned)
      else if val.PyList? && Classify(val.elems[0]).Some? then ListPlan(key, val.elems)
      else Plan([], Raised(TypeError(UNSUPPORTED_VALUE)))
  }

  /**
   * `__setitem__` as the source spells it: the float list branch tests later
   * elements against the undefined name `foat`, so a float list of two or
   * more elements raises NameError right after its first element is written.
   */
  function SetItemPlanAsWritten(key: string, val: PyValue): (p: Plan)
    ensures !(val.PyList? && |val.elems| >= 2 && val.elems[0].PyFloat?) ==> p == SetItemPlan(key, val)
  {
    if val.PyList? && |val.elems| >= 2 && val.elems[0].PyFloat? then
      Plan([SetValue(key, Float(val.elems[0].f))], Raised(NameError("foat")))
    else
      SetItemPlan(key, val)
  }

  /** A list read from the store, tagged with the key it came from. */
  class OptionVarList {
    const key: string
    const host: Table
    var items: seq<PyValue>

    constructor (val: seq<PyValue>, key: string, host: Table)
      ensures items == val && this.key == key && this.host == host
    {
      this.key := key;
      this.host := host;
      items := val;
    }

    /** The inherited `list.append`: it changes the local copy only. */
    method Append(x: PyValue)
      modifies this
      ensures items == old(items) + [x]
      ensures unchanged(host)
    {
      items := items + [x];
    }

    /**
     * Sends one append of `val`, typed by its own kind, for `key` to the
     * host; the local copy is left as it was. A value of no scalar kind
     * raises TypeError and sends nothing.
     */
    method AppendVar(val: PyValue) returns (r: Outcome)
      modifies host
      ensures items == old(items)
      ensures Classify(val).Some? ==>
        && r == Returned
        && host.log == old(host.log) + [AppendValue(key, Classify(val).value)]
        && host.vars == Apply(old(host.vars), AppendValue(key, Classify(val).value))
      ensures Classify(val).None? ==>
        r == Raised(TypeError(UNSUPPORTED_APPEND)) && host.log == old(host.log) && host.vars == old(host.vars)
    {
      if val.PyStr? {
        host.Issue(AppendValue(key, Str(val.s)));
        return Returned;
      }
      if val.PyInt? {
        host.Issue(AppendValue(key, Int(val.i)));
        return Returned;
      }
      if val.PyFloat? {
        host.Issue(AppendValue(key, Float(val.f)));
        return Returned;
      }
      return Raised(TypeError(UNSUPPORTED_APPEND));
    }
  }

  /** What `__getitem__` returns: a plain value, or a fresh `OptionVarList`. */
  datatype Item = Plain(value: PyValue) | View(list: OptionVarList)

  /**
   * `r` is what reading `key` gives when the host's query returned `q`:
   * a list comes back as an `OptionVarList` with the same elements, tagged
   * with `key` and sharing `host`; anything else comes back as it is.
   */
  predicate Presents(r: Item, key: string, host: Table, q: PyValue)
    reads if r.View? then {r.list} else {}
  {
    if q.PyList? then r.View? && r.list.key == key && r.list.host == host && r.list.items == q.elems
    else r == Plain(q)
  }

  /** The dictionary-like view of the host's option variables. */
  class OptionVarDict {
    const host: Table

    constructor (host: Table)
      ensures this.host == host
    {
      this.host := host;
    }

    /** `key in d`. */
    method Contains(key: string) returns (b: bool)
      ensures b <==> key in host.vars
    {
      b := host.Exists(key);
    }

    /** `d[key]`: the host's query result, a list wrapped in an `OptionVarList` tagged with `key`. */
    method GetItem(key: string) returns (r: Item)
      ensures Presents(r, key, host, QueryResult(host.vars, host.missing, key))
      ensures r.View? ==> fresh(r.list)
    {
      var val := host.Query(key);
      if val.PyList? {
        var l := new OptionVarList(val.elems, key, host);
        r := View(l);
      } else {
        r := Plain(val);
      }
    }

    /** `d[key] = val`: sends the commands of `SetItemPlan(key, val)` and ends as it says. */
    method SetItem(key: string, val: PyValue) returns (r: Outcome)
      modifies host
      ensures r == SetItemPlan(key, val).outcome
      ensures host.log == old(host.log) + SetItemPlan(key, val).calls
      ensures host.vars == ApplyAll(old(host.vars), SetItemPlan(key, val).calls)
    {
      if val.PyStr? {
        host.Issue(SetValue(key, Str(val.s)));
        return Returned;
      }
      if val.PyInt? {
        host.Issue(SetValue(key, Int(val.i)));
        return Returned;
      }
      if val.PyFloat? {
        host.Issue(SetValue(key, Float(val.f)));
        return Returned;
      }
      if val.PyList? {
        var elems := val.elems;
        if |elems| == 0 {
          host.Issue(ClearArray(key));
          return Returned;
        }
        if Classify(elems[0]).Some? {
          r := WriteList(key, elems);
          return;
        }
      }
      return Raised(TypeError(UNSUPPORTED_VALUE));
    }

    /**
     * The list branch of `__setitem__` once element 0 has a scalar kind:
     * element 0 is written with a value flag ("force to this datatype"),
     * then each later element is checked against element 0's kind and
     * appended; the first one of another kind raises TypeError, and what was
     * already written stays written.
     */
    method WriteList(key: string, elems: seq<PyValue>) returns (r: Outcome)
      requires |elems| > 0 && Classify(elems[0]).Some?
      modifies host
      ensures r == ListPlan(key, elems).outcome
      ensures host.log == old(host.log) + ListPlan(key, elems).calls
      ensures host.vars == ApplyAll(old(host.vars), ListPlan(key, elems).calls)
    {
      var first := Classify(elems[0]).value;
      var kind := KindOf(first);
      ghost var m0 := host.vars;
      host.Issue(SetValue(key, first));
      assert ScalarsOf(elems[..1]) == [first];
      var i := 1;
      ghost var written := [first];
      while i < |elems|
        invariant 1 <= i <= |elems|
        invariant forall j :: 0 <= j < i ==> HasKind(elems[j], kind)
        invariant written == ScalarsOf(elems[..i])
        invariant forall j :: 0 <= j < |written| ==> KindOf(written[j]) == kind
        invariant host.log == old(host.log) + WriteCalls(key, written)
        invariant host.vars == m0[key := StoredList(written)]
      {
        var e := Classify(elems[i]);
        if !(e.Some? && KindOf(e.value) == kind) {
          ListPlanStopsAt(key, elems, i);
          WriteCallsStore(m0, key, written);
          return Raised(TypeError(SAME_DATATYPE));
        }
        assert ScalarsOf(elems[..i + 1]) == written + [e.value];
        WriteCallsSnoc(key, written, e.value);
        AppendToStoredList(m0, key, written, e.value);
        host.Issue(AppendValue(key, e.value));
        written := written + [e.value];
        i := i + 1;
      }
      ListPlanStopsAt(key, elems, i);
      WriteCallsStore(m0, key, written);
      return Returned;
    }

    /** `d.keys()`: every key of the host once, in the host's order. */
    method Keys() returns (ks: seq<string>)
      ensures forall k :: k in ks <==> k in host.vars
      ensures forall i, j :: 0 <= i < j < |ks| ==> ks[i] != ks[j]
    {
      ks := host.ListKeys();
    }

    /** `d.get(key, default)`: `default` for an absent key, otherwise what `d[key]` gives. */
    method Get(key: string, default: PyValue := PyNone) returns (r: Item)
      ensures key !in host.vars ==> r == Plain(default)
      ensures key in host.vars ==> Presents(r, key, host, QueryResult(host.vars, host.missing, key))
      ensures r.View? && key in host.vars ==> fresh(r.list)
    {
      var present := HasKey(key);
      if present {
        r := GetItem(key);
      } else {
        r := Plain(default);
      }
    }

    /** `d.has_key(key)`. */
    method HasKey(key: string) returns (b: bool)
      ensures b <==> key in host.vars
    {
      b := host.Exists(key);
    }

    /** `d.pop(key)`: the host's query result for `key` (unwrapped), then the key is removed. */
    method Pop(key: string) returns (v: PyValue)
      modifies host
      ensures v == QueryResult(old(host.vars), host.missing, key)
      ensures host.vars == old(host.vars) - {key}
      ensures host.log == old(host.log) + [Remove(key)]
    {
      v := host.Query(key);
      host.Issue(Remove(key));
    }
  }

  lemma WriteCallsSnoc(key: string, ys: seq<Scalar>, y: Scalar)
    requires |ys| > 0
    ensures WriteCalls(key, ys + [y]) == WriteCalls(key, ys) + [AppendValue(key, y)]
  {
  }

  /** Appending a same-kind scalar to a stored list yields the longer stored list. */
  lemma AppendToStoredList(m: VarMap, key: string, ys: seq<Scalar>, y: Scalar)
    requires |ys| > 0 && KindOf(y) == KindOf(ys[0])
    ensures Apply(m[key := StoredList(ys)], AppendValue(key, y)) == m[key := StoredList(ys + [y])]
  {
    if |ys| == 1 {
      assert ys + [y] == [ys[0], y];
    }
  }

  /**
   * Writing a homogeneous non-empty list of scalars leaves the key holding
   * exactly that list (a scalar for a one-element list) and changes no other key.
   */
  lemma {:induction false} WriteCallsStore(m: VarMap, key: string, ys: seq<Scalar>)
    requires |ys| > 0
    requires forall j :: 0 <= j < |ys| ==> KindOf(ys[j]) == KindOf(ys[0])
    ensures ApplyAll(m, WriteCalls(key, ys)) == m[key := StoredList(ys)]
  {
    if |ys| == 1 {
      assert WriteCalls(key, ys) == [SetValue(key, ys[0])];
      ApplyAllSnoc(m, [], SetValue(key, ys[0]));
    } else {
      var init, y := ys[..|ys| - 1], ys[|ys| - 1];
      assert ys == init + [y];
      WriteCallsStore(m, key, init);
      WriteCallsSnoc(key, init, y);
      ApplyAllSnoc(m, WriteCalls(key, init), AppendValue(key, y));
      AppendToStoredList(m, key, init, y);
    }
  }

  /**
   * When the elements before `i` share the first element's kind and element
   * `i` is the first that does not (or `i` is the end), the list plan writes
   * exactly `elems[..i]`.
   */
  lemma ListPlanStopsAt(key: string, elems: seq<PyValue>, i: nat)
    requires 1 <= i <= |elems| && Classify(elems[0]).Some?
    requires forall j :: 0 <= j < i ==> HasKind(elems[j], KindOf(Classify(elems[0]).value))
    requires i < |elems| ==> !HasKind(elems[i], KindOf(Classify(elems[0]).value))
    ensures ListPlan(key, elems).calls == WriteCalls(key, ScalarsOf(elems[..i]))
    ensures ListPlan(key, elems).outcome == if i == |elems| then Returned else Raised(TypeError(SAME_DATATYPE))
  {
  }
}
