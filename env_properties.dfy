/**
 * What a write through `OptionVarDict.__setitem__` leaves in the host table,
 * and what reading the key back gives, stated over `SetItemPlan` (the
 * commands the write sends), `ApplyAll` (their effect on the table) and
 * `QueryResult` (what a read returns).
 */
module EnvProperties {
  import opened PyValues
  import opened OptionVarHost
  import opened Env

  /** What a read returns after a homogeneous list of scalars was written. */
  lemma StoredListQuery(m: VarMap, missing: PyValue, key: string, xs: seq<PyValue>)
    requires |xs| > 0 && forall j :: 0 <= j < |xs| ==> Classify(xs[j]).Some?
    ensures QueryResult(m[key := StoredList(ScalarsOf(xs))], missing, key)
         == if |xs| == 1 then xs[0] else PyList(xs)
  {
  }

  /**
   * A string, int or float is written with exactly one value command of its
   * own kind, and reading the key back gives the same value, unwrapped.
   * No other key changes.
   */
  lemma ScalarRoundTrip(m: VarMap, missing: PyValue, key: string, val: PyValue)
    requires val.PyStr? || val.PyInt? || val.PyFloat?
    ensures SetItemPlan(key, val).outcome == Returned
    ensures SetItemPlan(key, val).calls == [SetValue(key, Classify(val).value)]
    ensures val.PyStr? ==> KindOf(Classify(val).value) == StringKind
    ensures val.PyInt? ==> KindOf(Classify(val).value) == IntKind
    ensures val.PyFloat? ==> KindOf(Classify(val).value) == FloatKind
    ensures QueryResult(ApplyAll(m, SetItemPlan(key, val).calls), missing, key) == val
    ensures ApplyAll(m, SetItemPlan(key, val).calls) - {key} == m - {key}
  {
  }

  /**
   * Setting a key to `[]` sends only `clearArray` for that key. It removes an
   * array entry; a scalar entry, which `clearArray` does not touch, stays.
   */
  lemma EmptyListClears(m: VarMap, missing: PyValue, key: string)
    ensures SetItemPlan(key, PyList([])) == Plan([ClearArray(key)], Returned)
    ensures key in ApplyAll(m, [ClearArray(key)]) <==> key in m && m[key].ScalarVar?
    ensures ApplyAll(m, [ClearArray(key)]) - {key} == m - {key}
  {
  }

  /**
   * A homogeneous list of two or more scalars is written as a value command
   * for element 0 and one append per later element; reading the key back
   * gives a list equal to it, in order. No other key changes.
   */
  lemma HomogeneousListRoundTrip(m: VarMap, missing: PyValue, key: string, elems: seq<PyValue>)
    requires |elems| >= 2 && Classify(elems[0]).Some?
    requires forall j :: 0 <= j < |elems| ==> HasKind(elems[j], KindOf(Classify(elems[0]).value))
    ensures SetItemPlan(key, PyList(elems)).outcome == Returned
    ensures SetItemPlan(key, PyList(elems)).calls == WriteCalls(key, ScalarsOf(elems))
    ensures QueryResult(ApplyAll(m, SetItemPlan(key, PyList(elems)).calls), missing, key) == PyList(elems)
    ensures ApplyAll(m, SetItemPlan(key, PyList(elems)).calls) - {key} == m - {key}
  {
    assert SetItemPlan(key, PyList(elems)) == ListPlan(key, elems);
    ListPlanStopsAt(key, elems, |elems|);
    assert elems[..|elems|] == elems;
    var ys := ScalarsOf(elems);
    assert forall j :: 0 <= j < |ys| ==> KindOf(ys[j]) == KindOf(ys[0]);
    WriteCallsStore(m, key, ys);
    StoredListQuery(m, missing, key, elems);
  }

  /**
   * A one-element list is written with a single value command, so reading
   * the key back gives the element itself, not a list.
   */
  lemma SingleElementListReadsAsScalar(m: VarMap, missing: PyValue, key: string, x: PyValue)
    requires Classify(x).Some?
    ensures SetItemPlan(key, PyList([x])) == Plan([SetValue(key, Classify(x).value)], Returned)
    ensures QueryResult(ApplyAll(m, SetItemPlan(key, PyList([x])).calls), missing, key) == x
  {
  }

  /**
   * When element `i` is the first whose kind differs from element 0's,
   * TypeError is raised after exactly elements `0..i-1` were written; they
   * stay in the table (nothing is rolled back) and read back as that prefix.
   */
  lemma HeterogeneousListKeepsPrefix(m: VarMap, missing: PyValue, key: string, elems: seq<PyValue>, i: nat)
    requires 1 <= i < |elems| && Classify(elems[0]).Some?
    requires forall j :: 0 <= j < i ==> HasKind(elems[j], KindOf(Classify(elems[0]).value))
    requires !HasKind(elems[i], KindOf(Classify(elems[0]).value))
    ensures SetItemPlan(key, PyList(elems)).outcome == Raised(TypeError(SAME_DATATYPE))
    ensures SetItemPlan(key, PyList(elems)).calls == WriteCalls(key, ScalarsOf(elems[..i]))
    ensures QueryResult(ApplyAll(m, SetItemPlan(key, PyList(elems)).calls), missing, key)
         == if i == 1 then elems[0] else PyList(elems[..i])
    ensures ApplyAll(m, SetItemPlan(key, PyList(elems)).calls) - {key} == m - {key}
  {
    assert SetItemPlan(key, PyList(elems)) == ListPlan(key, elems);
    ListPlanStopsAt(key, elems, i);
    var ys := ScalarsOf(elems[..i]);
    assert forall j :: 0 <= j < |ys| ==> KindOf(ys[j]) == KindOf(ys[0]);
    WriteCallsStore(m, key, ys);
    StoredListQuery(m, missing, key, elems[..i]);
  }

  /**
   * A value of no supported type, or a non-empty list whose element 0 has
   * no scalar kind, raises TypeError without sending anything.
   */
  lemma UnsupportedValueRaises(m: VarMap, key: string, val: PyValue)
    requires !(val.PyStr? || val.PyInt? || val.PyFloat? || val.PyList?)
          || (val.PyList? && |val.elems| > 0 && Classify(val.elems[0]).None?)
    ensures SetItemPlan(key, val) == Plan([], Raised(TypeError(UNSUPPORTED_VALUE)))
    ensures ApplyAll(m, SetItemPlan(key, val).calls) == m
  {
  }

  /** Whatever `__setitem__(key, val)` does, every other key keeps its entry. */
  lemma SetItemTouchesOnlyKey(m: VarMap, key: string, val: PyValue, other: string)
    requires other != key
    ensures other in ApplyAll(m, SetItemPlan(key, val).calls) <==> other in m
    ensures other in m ==> ApplyAll(m, SetItemPlan(key, val).calls)[other] == m[other]
  {
    ApplyAllElsewhere(m, SetItemPlan(key, val).calls, other);
  }

  /**
   * The kind checks of the list branch at work: every append that
   * `__setitem__` sends reaches an entry that already holds the appended
   * value's kind, so the host never has to start a new array mid-write.
   */
  lemma SetItemAppendsMatchKind(m: VarMap, key: string, val: PyValue, i: nat)
    requires i < |SetItemPlan(key, val).calls| && SetItemPlan(key, val).calls[i].AppendValue?
    ensures key in ApplyAll(m, SetItemPlan(key, val).calls[..i])
    ensures StoredKind(ApplyAll(m, SetItemPlan(key, val).calls[..i])[key])
         == KindOf(SetItemPlan(key, val).calls[i].value)
  {
    var p := SetItemPlan(key, val);
    assert val.PyList? && |val.elems| > 0 && Classify(val.elems[0]).Some? && p == ListPlan(key, val.elems);
    var elems := val.elems;
    var k := KindOf(Classify(elems[0]).value);
    var n := |p.calls|;
    assert forall j :: 0 <= j < n ==> HasKind(elems[j], k);
    var ys := ScalarsOf(elems[..n]);
    assert p.calls[..i] == WriteCalls(key, ys[..i]);
    assert forall j :: 0 <= j < i ==> KindOf(ys[..i][j]) == KindOf(ys[..i][0]);
    WriteCallsStore(m, key, ys[..i]);
  }

  /**
   * As the source spells it, a float list of two or more elements raises
   * NameError after only element 0 was written, where the corrected check
   * writes a homogeneous float list whole.
   */
  lemma FloatListAsWrittenRaisesNameError(m: VarMap, missing: PyValue, key: string, elems: seq<PyValue>)
    requires |elems| >= 2 && forall j :: 0 <= j < |elems| ==> elems[j].PyFloat?
    ensures SetItemPlanAsWritten(key, PyList(elems))
         == Plan([SetValue(key, Float(elems[0].f))], Raised(NameError("foat")))
    ensures QueryResult(ApplyAll(m, SetItemPlanAsWritten(key, PyList(elems)).calls), missing, key) == elems[0]
    ensures SetItemPlan(key, PyList(elems)).outcome == Returned
    ensures QueryResult(ApplyAll(m, SetItemPlan(key, PyList(elems)).calls), missing, key) == PyList(elems)
  {
    ApplyAllSnoc(m, [], SetValue(key, Float(elems[0].f)));
    HomogeneousListRoundTrip(m, missing, key, elems);
  }

  /**
   * `appendVar` on a list read from a key holding values of its kind: a
   * later read gives the earlier contents followed by the appended value.
   */
  lemma AppendVarExtendsRead(m: VarMap, missing: PyValue, key: string, val: PyValue)
    requires key in m && Classify(val).Some? && StoredKind(m[key]) == KindOf(Classify(val).value)
    ensures QueryResult(Apply(m, AppendValue(key, Classify(val).value)), missing, key)
         == PyList(AsElems(QueryResult(m, missing, key)) + [val])
  {
  }

  /** The docstring of `OptionVarDict`, first part: a string reads back unwrapped. */
  method DocScalarExample(d: OptionVarDict) returns (s: Item)
    modifies d.host
    ensures s == Plain(PyStr("dooder"))
  {
    var r := d.SetItem("test", PyStr("dooder"));
    ScalarRoundTrip(old(d.host.vars), d.host.missing, "test", PyStr("dooder"));
    s := d.GetItem("test");
  }

  /**
   * The docstring of `OptionVarDict`, second part: a list reads back as an
   * `OptionVarList` tagged with its key, and a plain `append` on it changes
   * the local copy only.
   */
  method DocListExample(d: OptionVarDict) returns (lst: OptionVarList)
    modifies d.host
    ensures fresh(lst) && lst.key == "test" && lst.host == d.host
    ensures lst.items == [PyInt(1), PyInt(24), PyInt(7), PyInt(9)]
    ensures "test" in d.host.vars && d.host.vars["test"] == ArrayVar(IntKind, [Int(1), Int(24), Int(7)])
  {
    var nums := [PyInt(1), PyInt(24), PyInt(7)];
    var r := d.SetItem("test", PyList(nums));
    HomogeneousListRoundTrip(old(d.host.vars), d.host.missing, "test", nums);
    WriteCallsStore(old(d.host.vars), "test", ScalarsOf(nums));
    assert ScalarsOf(nums) == [Int(1), Int(24), Int(7)];
    var read := d.GetItem("test");
    lst := read.list;
    lst.Append(PyInt(9));
  }

  /**
   * `appendVar` on the list of the second part persists: the key then reads
   * back with the value at its end, while `append` had not changed it.
   */
  method DocAppendVarExample(d: OptionVarDict) returns (after: Item)
    modifies d.host
    ensures "test" in d.host.vars && d.host.vars["test"] == ArrayVar(IntKind, [Int(1), Int(24), Int(7), Int(9)])
    ensures after.View? && fresh(after.list) && after.list.key == "test" && after.list.host == d.host
    ensures after.list.items == [PyInt(1), PyInt(24), PyInt(7), PyInt(9)]
  {
    var lst := DocListExample(d);
    ghost var before := d.host.vars;
    var r := lst.AppendVar(PyInt(9));
    AppendVarExtendsRead(before, d.host.missing, "test", PyInt(9));
    after := d.GetItem("test");
  }
}
