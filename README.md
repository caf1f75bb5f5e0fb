# Typed option variables over an in-memory host table

This project models the option-variable layer of pymel's `env.py`, written in Dafny, and proves properties of it:

- `OptionVarDict` is a dictionary-like view of Maya's option variables. On a write it picks the datatype from the value's runtime type: string, then int, then float, then list. A non-empty list is written as one value write of element 0, which forces the key to that datatype. Each later element is then checked against element 0's kind and sent as one append. An empty list becomes a `clearArray`. A read wraps a list result in an `OptionVarList` tagged with the key.
- `OptionVarList` is a list that remembers its key. The inherited `append` changes only the local copy. `appendVar` sends exactly one typed append to the host and leaves the local copy alone.

Files and modules:

- `pyvalues.dfy`, module `PyValues`: the Python values a caller hands in (`PyValue`), the three scalar kinds, and `Classify`, the ordered isinstance chain.
- `optionvar_host.dfy`, module `OptionVarHost`: the host's `optionVar` command, modelled as an in-memory table. It is a class `Table` that holds a `map<string, Stored>` and a log of the commands that changed it. A `Stored` entry is `ScalarVar(value)` or `ArrayVar(kind, items)`. The pure functions `Apply`, `ApplyAll` and `QueryResult` give the effect of each flag.
- `env.dfy`, module `Env`: the classes `OptionVarList` and `OptionVarDict`. It also defines `SetItemPlan`, the exact sequence of commands `__setitem__` sends and the way it ends (it returns, or it raises `TypeError`).
- `env_properties.dfy`, module `EnvProperties`: the round-trip, error-path and frame lemmas, and three client methods that walk through the class docstring.

Every `OptionVarDict` method proves that it sends the commands `SetItemPlan` describes, or that it reads the table as stated. The lemmas then say what those commands do to the table.

Assumed host semantics (the real `cmds.optionVar` is not part of this model):

- A value flag replaces whatever the key held with a scalar.
- An append of the same kind turns a scalar into a two-element array, and extends an array at its end.
- An append to an absent key, or to a key of another kind, starts a one-element array of the new kind.
- `clearArray` removes an array entry and leaves a scalar entry in place.
- `remove` removes any entry.
- A query of an absent key returns a fixed host-defined value, `Table.missing`.
- Queries (`exists`, `q`, `list`) are not recorded in `Table.log`. Only commands that change the table are.

The model follows what the code does, including where a dictionary-like store might be expected to behave otherwise:

- There is no KeyNotFound. `__getitem__`, `get` past `has_key`, and `pop` return whatever the host's query gives.
- A failed list write does not leave the prior value unchanged. The elements before the first mismatch are already written, and they stay.
- A list is written element by element, not as one array value.
- `appendVar` does not check the value against the list's element kind. It does not append to the local copy either.

## Model

| member | source | states |
|---|---|---|
| PyValues.Classify | env.py:70-75 | a value has a scalar kind exactly when it is a string, an int or a float, and the classified scalar converts back to the value itself |
| PyValues.ClassifyToPy | env.py:36-41 | classifying the Python value of a stored scalar gives that scalar back, so the kind chosen on write is the kind stored |
| OptionVarHost.AppendExtendsQuery | env.py:37-41 | appending a value of the entry's own kind makes a later query return the earlier result (a scalar counts as a one-element list) followed by that value |
| OptionVarHost.ApplyKeepsTableValid | env.py:71-100 | a property of the assumed host alone, not of the kind checks in `__setitem__`: every state-changing `optionVar` flag keeps every array entry non-empty and homogeneous |
| OptionVarHost.ApplyAllKeepsTableValid | env.py:71-100 | a property of the assumed host alone: any sequence of `optionVar` flags, checked or not, keeps every array entry non-empty and homogeneous |
| OptionVarHost.ApplyAllElsewhere | env.py:69-103 | commands addressed to other keys leave a key's presence and entry unchanged |
| OptionVarHost.Table.Issue | env.py:71-100 | a state-changing `optionVar` flag updates the table by `Apply` and appends exactly that command to the log |
| OptionVarHost.Table.Exists | env.py:62 | `exists` is true exactly when the table holds the key |
| OptionVarHost.Table.Query | env.py:65 | `q` returns the host's missing value for an absent key, the scalar for a scalar entry, and the list of elements for an array entry |
| OptionVarHost.Table.ListKeys | env.py:106 | `list` returns every key of the table exactly once, with no other entries |
| Env.MatchingRun | env.py:82-84 | the length of the longest prefix whose elements all have the kind checked; the element after it, if any, does not |
| Env.SetItemPlan | env.py:69-103 | every command `__setitem__` sends is addressed to its own key |
| Env.SetItemPlanAsWritten | env.py:95-101 | as written, the plan differs from the corrected one only for float lists of two or more elements |
| Env.ListPlan | env.py:80-101 | the list branch sends a value write of element 0 first, then for each later element sent, one append of it, each checked to have element 0's kind; it returns exactly when every element was sent, and otherwise raises the same-datatype TypeError at the first element of another kind |
| Env.ListPlanStopsAt | env.py:80-101 | if element i is the first one whose kind differs from element 0's (or i is the end), the list write sends exactly the writes of elements 0..i-1, then raises TypeError or returns |
| Env.WriteCallsSnoc | env.py:82-85 | writing one more element adds exactly one append of it at the end of the commands |
| Env.AppendToStoredList | env.py:85 | appending a same-kind scalar to a written list leaves the key holding the list extended by it |
| Env.OptionVarList.constructor | env.py:28-30 | the new list holds the given elements and the key |
| Env.OptionVarList.Append | env.py:32-34 | the inherited append extends the local copy by the value and leaves the host unchanged |
| Env.OptionVarList.AppendVar | env.py:31-42 | a string, int or float sends exactly one append of its own kind for the list's key and leaves the local copy unchanged; any other value raises TypeError and sends nothing |
| Env.OptionVarDict.constructor | env.py:45-59 | the view is over the given host table |
| Env.OptionVarDict.Contains | env.py:61-62 | `key in d` agrees with the host's `exists` |
| Env.OptionVarDict.GetItem | env.py:64-68 | the host's query result comes back as it is, except that a list comes back as a fresh OptionVarList with the same elements, tagged with the key and sharing the host |
| Env.OptionVarDict.SetItem | env.py:69-103 | the host receives exactly the commands `SetItemPlan` lists, in order, the table ends as they make it, and the call ends as the plan says |
| Env.OptionVarDict.WriteList | env.py:80-101 | the list branch sends the value write of element 0 and one append per matching later element, stopping with TypeError at the first mismatch |
| Env.OptionVarDict.Keys | env.py:105-106 | every key of the host exactly once |
| Env.OptionVarDict.Get | env.py:108-112 | for an absent key, the default (`None` when not given); for a present key, what `d[key]` gives |
| Env.OptionVarDict.HasKey | env.py:114-115 | `has_key` agrees with the host's `exists` |
| Env.OptionVarDict.Pop | env.py:117-120 | returns the host's query result for the key, unwrapped; afterwards the key is absent, every other key is unchanged, and exactly one `remove` was sent |
| Env.WriteCallsStore | env.py:80-101 | a value write followed by appends of same-kind scalars leaves the key holding exactly those scalars, and the rest of the table untouched |
| EnvProperties.StoredListQuery | env.py:64-68 | after a written list, the read gives the list itself, or its one element when there is only one |
| EnvProperties.ScalarRoundTrip | env.py:70-75 | a string, int or float is sent as exactly one value write of its own kind; reading it back gives the same value, and other keys do not change |
| EnvProperties.EmptyListClears | env.py:77-79 | `[]` sends only a `clearArray` for the key; afterwards the key is present only if it held a scalar, and other keys do not change |
| EnvProperties.HomogeneousListRoundTrip | env.py:80-101 | a homogeneous list of two or more elements is written as element 0 plus one append per later element, the write returns, reading it back gives the same list in order, and other keys do not change |
| EnvProperties.SingleElementListReadsAsScalar | env.py:87-94 | a one-element list is sent as one value write, and reading it back gives the element, not a list |
| EnvProperties.HeterogeneousListKeepsPrefix | env.py:82-85 | when element i is the first of another kind, TypeError is raised after exactly elements 0..i-1 were written; they stay in the table and read back as that prefix |
| EnvProperties.UnsupportedValueRaises | env.py:77-103 | a value that is not a string, int, float or list, or a list whose element 0 is none of those, raises TypeError, sends nothing and leaves the table unchanged |
| EnvProperties.SetItemTouchesOnlyKey | env.py:69-103 | whatever the value, a write changes no key other than its own |
| EnvProperties.SetItemAppendsMatchKind | env.py:80-101 | because of the element checks, every append a write sends reaches an entry that is present and already holds the appended value's kind, so the host never starts a new array in the middle of a list write |
| EnvProperties.FloatListAsWrittenRaisesNameError | env.py:95-101 | as written, a float list of two or more elements raises NameError with only element 0 stored; the corrected check stores the whole list |
| EnvProperties.AppendVarExtendsRead | env.py:31-41 | after `appendVar` of a value of the key's kind, a read gives the earlier contents followed by the value |
| EnvProperties.DocScalarExample | env.py:50-52 | after writing 'dooder', reading the key gives the plain string |
| EnvProperties.DocListExample | env.py:53-55 | after writing [1, 24, 7], reading gives a fresh OptionVarList tagged 'test' with those elements; a plain append changes only that local copy, and the host still holds the int array [1, 24, 7] |
| EnvProperties.DocAppendVarExample | env.py:31-34 | `appendVar(9)` on that list persists: the host then holds the int array [1, 24, 7, 9], and reading the key gives a fresh OptionVarList tagged 'test' with those elements |

## Findings

| source | as written | input that shows it | evidently intended | confidence | as-written member | corrected member |
|---|---|---|---|---|---|---|
| env.py:98 | the float-list branch checks each later element against the undefined name `foat` | `optionVars['k'] = [1.0, 2.0]`: element 0 is written, then NameError is raised | `isinstance(elem, float)`, so that a homogeneous float list is stored whole, as for strings and ints | high; not executed | Env.SetItemPlanAsWritten, EnvProperties.FloatListAsWrittenRaisesNameError | Env.SetItemPlan, EnvProperties.HomogeneousListRoundTrip |

## Left out

- The `Env` class and its pass-throughs to the host (time range, up axis, construction history, scene name, user and host names, `os.environ`) are left out. Each is a single host call with no logic of its own.
- The `Singleton` base class is left out. It is class-level construction machinery, and a second construction returns `None`. Callers pass the host table explicitly instead.
- The debug `print` in the int-list loop is left out. It is output only.
- Real Maya persistence and the internals of `cmds.optionVar` are replaced by the in-memory `Table` and its stated semantics. It is an assumption, not a model of Maya.
- Python's `bool` being an `int`, and the `str`/`unicode` split, are not drawn. Kinds are an explicit sum type.
- Python 2's `long` is not drawn: every `PyInt` is sent with `intValue`. In the source an integer too large for `int` (for example `10**20`) is a `long`, fails `isinstance(val, int)`, and so raises TypeError at env.py:103, at env.py:91 inside an int list, and at env.py:42 in `appendVar`. The model writes it as an int instead.
- Floats are modelled as `real`, because they are only stored and compared. The host's integer width is not modelled.
- Env.SetItemPlan: the float-list check is modelled as the evident `isinstance(elem, float)`. The code as written is `Env.SetItemPlanAsWritten` (see Findings).
- EnvProperties.HomogeneousListRoundTrip: stated for lists of two or more elements. Under the modelled host, a one-element list is written as a single value write and reads back as the bare element, which EnvProperties.SingleElementListReadsAsScalar proves.
- EnvProperties.EmptyListClears: setting `[]` leaves the key absent only when it did not hold a scalar, because `clearArray` is modelled as clearing arrays only.
- The docstring's claim that a plain `append` on a read list persists is not modelled. It contradicts the `appendVar` doc comment, and the model follows the code: `append` is local (Env.OptionVarList.Append).
