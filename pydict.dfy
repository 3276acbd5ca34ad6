/** The values the clients put into a JSON request body, Python's
    insertion-ordered `dict` over them, and a Python `list` object that
    several names can share. */
module PyDict {
  import opened Wrappers

  /** The two roles a chat turn can have. */
  datatype Role = User | Assistant

  /** One chat turn, `{"role": ..., "content": ...}`. */
  datatype Message = Message(role: Role, content: string)

  /** A JSON-serialisable Python value as the clients use it. Floats are
      written as `real` (no rounding); `Null` is Python's `None`. */
  datatype Value =
    | Null
    | Bool(b: bool)
    | Int(i: int)
    | Float(x: real)
    | Str(s: string)
    | List(items: seq<Value>)
    | Messages(turns: seq<Message>)

  /** Python truthiness, as `if echo:` and `if stream:` test it. */
  predicate Truthy(v: Value) {
    match v
    case Null => false
    case Bool(b) => b
    case Int(i) => i != 0
    case Float(x) => x != 0.0
    case Str(s) => s != ""
    case List(items) => items != []
    case Messages(turns) => turns != []
  }

  type Entry = (string, Value)

  /** The keys of a list of entries, in order. */
  function KeysOf(d: seq<Entry>): (ks: seq<string>)
    ensures |ks| == |d|
    ensures forall i :: 0 <= i < |d| ==> ks[i] == d[i].0
  {
    if d == [] then [] else [d[0].0] + KeysOf(d[1..])
  }

  /** No key occurs twice. */
  predicate Distinct(ks: seq<string>) {
    forall i, j :: 0 <= i < j < |ks| ==> ks[i] != ks[j]
  }

  /** A Python `dict`: its entries in insertion order. Every dict the model
      builds has `Distinct` keys (`SetKeepsDistinct`); lookup takes the first
      entry for a key, which for such a dict is the only one. */
  type Dict = seq<Entry>

  /** `d.get(k)`: the value stored under `k`, or `None`. */
  function Get(d: Dict, k: string): Option<Value> {
    if d == [] then None
    else if d[0].0 == k then Some(d[0].1)
    else Get(d[1..], k)
  }

  /** A key is found exactly when it is one of the dict's keys. */
  lemma {:induction false} GetSomeIffKey(d: Dict, k: string)
    ensures Get(d, k).Some? <==> k in KeysOf(d)
  {
    if d != [] {
      GetSomeIffKey(d[1..], k);
      assert KeysOf(d) == [d[0].0] + KeysOf(d[1..]);
    }
  }

  /** The entry at position `i` is what lookup finds for its key when no
      earlier entry has that key. */
  lemma {:induction false} GetAt(d: Dict, i: nat)
    requires i < |d|
    requires forall j :: 0 <= j < i ==> d[j].0 != d[i].0
    ensures Get(d, d[i].0) == Some(d[i].1)
  {
    if i > 0 {
      GetAt(d[1..], i - 1);
    }
  }

  /** `d[k] = v`: replaces the value where `k` already is, and otherwise adds
      `(k, v)` at the end. Lookups of other keys are unaffected. */
  function Set(d: Dict, k: string, v: Value): Dict {
    if d == [] then [(k, v)]
    else if d[0].0 == k then [(k, v)] + d[1..]
    else [d[0]] + Set(d[1..], k, v)
  }

  /** After `d[k] = v`, `k` holds `v` and every other key what it held. */
  lemma {:induction false} SetGet(d: Dict, k: string, v: Value)
    ensures Get(Set(d, k, v), k) == Some(v)
    ensures forall j :: j != k ==> Get(Set(d, k, v), j) == Get(d, j)
  {
    if d != [] && d[0].0 != k {
      SetGet(d[1..], k, v);
    }
  }

  /** Existing keys keep their positions; a new key goes last. */
  lemma {:induction false} SetKeys(d: Dict, k: string, v: Value)
    ensures KeysOf(Set(d, k, v)) == if k in KeysOf(d) then KeysOf(d) else KeysOf(d) + [k]
  {
    if d != [] {
      assert KeysOf(d) == [d[0].0] + KeysOf(d[1..]);
      if d[0].0 != k {
        SetKeys(d[1..], k, v);
        assert KeysOf(Set(d, k, v)) == [d[0].0] + KeysOf(Set(d[1..], k, v));
      }
    }
  }

  /** Assigning a key never creates a duplicate. */
  lemma SetKeepsDistinct(d: Dict, k: string, v: Value)
    requires Distinct(KeysOf(d))
    ensures Distinct(KeysOf(Set(d, k, v)))
  {
    SetKeys(d, k, v);
    var ks := KeysOf(d);
    if k !in ks {
      forall i, j | 0 <= i < j < |ks| + 1 ensures (ks + [k])[i] != (ks + [k])[j] {
        if j == |ks| { assert ks[i] in ks; }
      }
    }
  }

  /** `if c: d[k] = v`. */
  function SetIf(d: Dict, c: bool, k: string, v: Value): Dict {
    if c then Set(d, k, v) else d
  }

  /** After `if c: d[k] = v`, `k` holds `v` when `c` held, and every other
      key what it held. */
  lemma SetIfGet(d: Dict, c: bool, k: string, v: Value)
    ensures Get(SetIf(d, c, k, v), k) == if c then Some(v) else Get(d, k)
    ensures forall j :: j != k ==> Get(SetIf(d, c, k, v), j) == Get(d, j)
  {
    SetGet(d, k, v);
  }

  /** A conditional assignment of a key `d` lacks adds it at the end exactly
      when the condition holds. */
  lemma SetIfNew(d: Dict, c: bool, k: string, v: Value)
    requires k !in KeysOf(d)
    ensures KeysOf(SetIf(d, c, k, v)) == KeysOf(d) + (if c then [k] else [])
  {
    SetKeys(d, k, v);
    assert KeysOf(d) + [] == KeysOf(d);
  }

  /** One `if when: d[key] = value` of a run of conditional assignments. */
  datatype Insertion = Insertion(key: string, when: bool, value: Value)

  /** The assignments of a run name different keys. */
  predicate DistinctKeys(ins: seq<Insertion>) {
    forall i, j :: 0 <= i < j < |ins| ==> ins[i].key != ins[j].key
  }

  /** The assignments after the first still name different keys. */
  lemma DistinctKeysTail(ins: seq<Insertion>)
    requires ins != [] && DistinctKeys(ins)
    ensures DistinctKeys(ins[1..])
  {
    var rest := ins[1..];
    forall i, j | 0 <= i < j < |rest| ensures rest[i].key != rest[j].key {
      assert rest[i] == ins[i + 1] && rest[j] == ins[j + 1];
    }
  }

  /** A run of conditional assignments, performed in order. */
  function SetEach(d: Dict, ins: seq<Insertion>): Dict
    decreases |ins|
  {
    if ins == [] then d else SetEach(SetIf(d, ins[0].when, ins[0].key, ins[0].value), ins[1..])
  }

  /** The run from its k-th assignment: that assignment, then the rest. */
  lemma SetEachStep(d: Dict, ins: seq<Insertion>, k: nat)
    requires k < |ins|
    ensures SetEach(d, ins[k..]) == SetEach(SetIf(d, ins[k].when, ins[k].key, ins[k].value), ins[k + 1..])
  {
    assert ins[k..][0] == ins[k];
    assert ins[k..][1..] == ins[k + 1..];
  }

  /** The keys of the assignments whose condition holds, in order. */
  function Chosen(ins: seq<Insertion>): seq<string>
    decreases |ins|
  {
    if ins == [] then [] else (if ins[0].when then [ins[0].key] else []) + Chosen(ins[1..])
  }

  /** The chosen keys from the k-th assignment on. */
  lemma ChosenStep(ins: seq<Insertion>, k: nat)
    requires k < |ins|
    ensures Chosen(ins[k..]) == (if ins[k].when then [ins[k].key] else []) + Chosen(ins[k + 1..])
  {
    assert ins[k..][0] == ins[k];
    assert ins[k..][1..] == ins[k + 1..];
  }

  /** A key of `Chosen` is a key of the run. */
  lemma {:induction false} ChosenFromRun(ins: seq<Insertion>, k: string)
    requires k in Chosen(ins)
    ensures exists i :: 0 <= i < |ins| && ins[i].key == k
    decreases |ins|
  {
    if ins[0].when && k == ins[0].key {
      assert ins[0].key == k;
    } else {
      assert k in Chosen(ins[1..]);
      ChosenFromRun(ins[1..], k);
      var i :| 0 <= i < |ins[1..]| && ins[1..][i].key == k;
      assert ins[i + 1].key == k;
    }
  }

  /** After the first assignment of a run whose keys `d` lacks, `d` still
      lacks the keys of the rest. */
  lemma SetEachFirstFresh(d: Dict, ins: seq<Insertion>)
    requires ins != [] && DistinctKeys(ins)
    requires forall i :: 0 <= i < |ins| ==> ins[i].key !in KeysOf(d)
    ensures forall i :: 0 <= i < |ins| - 1 ==>
              ins[1..][i].key !in KeysOf(SetIf(d, ins[0].when, ins[0].key, ins[0].value))
  {
    SetKeys(d, ins[0].key, ins[0].value);
    forall i | 0 <= i < |ins| - 1
      ensures ins[1..][i].key !in KeysOf(SetIf(d, ins[0].when, ins[0].key, ins[0].value))
    {
      assert ins[1..][i] == ins[i + 1];
      assert ins[0].key != ins[i + 1].key;
    }
  }

  /** When no key of the run is in `d`, the run appends exactly the keys
      whose condition holds, in the run's order. */
  lemma {:induction false} SetEachKeys(d: Dict, ins: seq<Insertion>)
    requires DistinctKeys(ins)
    requires forall i :: 0 <= i < |ins| ==> ins[i].key !in KeysOf(d)
    ensures KeysOf(SetEach(d, ins)) == KeysOf(d) + Chosen(ins)
    decreases |ins|
  {
    if ins != [] {
      var first := SetIf(d, ins[0].when, ins[0].key, ins[0].value);
      SetIfNew(d, ins[0].when, ins[0].key, ins[0].value);
      SetEachFirstFresh(d, ins);
      DistinctKeysTail(ins);
      SetEachKeys(first, ins[1..]);
      AppendAssoc(KeysOf(d), if ins[0].when then [ins[0].key] else [], Chosen(ins[1..]));
    }
  }

  lemma AppendAssoc<T>(a: seq<T>, b: seq<T>, c: seq<T>)
    ensures a + b + c == a + (b + c)
  {
  }

  /** A key the run does not assign keeps its value. */
  lemma {:induction false} SetEachOther(d: Dict, ins: seq<Insertion>, k: string)
    requires forall i :: 0 <= i < |ins| ==> ins[i].key != k
    ensures Get(SetEach(d, ins), k) == Get(d, k)
    decreases |ins|
  {
    if ins != [] {
      assert ins[0].key != k;
      SetIfGet(d, ins[0].when, ins[0].key, ins[0].value);
      SetEachOther(SetIf(d, ins[0].when, ins[0].key, ins[0].value), ins[1..], k);
    }
  }

  /** After the run, an assigned key holds its value when its condition held,
      and what it held before otherwise. */
  lemma {:induction false} SetEachGet(d: Dict, ins: seq<Insertion>, i: nat)
    requires DistinctKeys(ins)
    requires i < |ins|
    ensures Get(SetEach(d, ins), ins[i].key) == if ins[i].when then Some(ins[i].value) else Get(d, ins[i].key)
    decreases |ins|
  {
    var first := SetIf(d, ins[0].when, ins[0].key, ins[0].value);
    SetIfGet(d, ins[0].when, ins[0].key, ins[0].value);
    if i == 0 {
      forall j | 0 <= j < |ins[1..]| ensures ins[1..][j].key != ins[0].key {
        assert ins[0].key != ins[j + 1].key;
      }
      SetEachOther(first, ins[1..], ins[0].key);
    } else {
      assert ins[1..][i - 1] == ins[i];
      assert ins[0].key != ins[i].key;
      SetEachGet(first, ins[1..], i - 1);
    }
  }

  /** `d.update(kw)`: every key of `kw` is set to `kw`'s value, in `kw`'s
      order. `kw` is itself a dict, so its keys are distinct. */
  function Update(d: Dict, kw: Dict): (r: Dict)
    requires Distinct(KeysOf(kw))
    ensures forall j :: Get(r, j) == if Get(kw, j).Some? then Get(kw, j) else Get(d, j)
    decreases |kw|
  {
    if kw == [] then d
    else
      var rest := kw[1..];
      assert KeysOf(rest) == KeysOf(kw)[1..];
      assert kw[0].0 !in KeysOf(rest) by {
        forall i | 0 <= i < |KeysOf(rest)| ensures KeysOf(rest)[i] != kw[0].0 {
          assert KeysOf(kw)[0] != KeysOf(kw)[i + 1];
        }
      }
      GetSomeIffKey(rest, kw[0].0);
      SetGet(d, kw[0].0, kw[0].1);
      Update(Set(d, kw[0].0, kw[0].1), rest)
  }

  /** After `d.update(kw)` the keys are `d`'s, in place, followed by those of
      `kw`'s keys that `d` lacked. */
  lemma {:induction false} UpdateKeys(d: Dict, kw: Dict)
    requires Distinct(KeysOf(kw))
    ensures KeysOf(d) <= KeysOf(Update(d, kw))
    ensures forall j :: j in KeysOf(Update(d, kw)) <==> j in KeysOf(d) || j in KeysOf(kw)
    decreases |kw|
  {
    if kw != [] {
      var rest := kw[1..];
      assert KeysOf(rest) == KeysOf(kw)[1..];
      assert KeysOf(kw) == [kw[0].0] + KeysOf(rest);
      var d' := Set(d, kw[0].0, kw[0].1);
      SetKeys(d, kw[0].0, kw[0].1);
      UpdateKeys(d', rest);
    }
  }

  /** A Python `list` object. Whoever holds a reference sees every append,
      which is how a list returned by a getter stays "live". */
  class ListRef<T> {
    var items: seq<T>

    constructor ()
      ensures items == []
    {
      items := [];
    }

    /** `lst.append(x)`. */
    method Append(x: T)
      modifies this
      ensures items == old(items) + [x]
    {
      items := items + [x];
    }
  }
}
