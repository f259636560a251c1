/** The two URCap collaborators a program-node contribution writes through:
    the persisted `DataModel` (a flat map from string keys to scalar values)
    and the `UndoRedoManager`, whose units of work are modelled here as
    explicit transactions, i.e. lists of key writes executed in order. */
module UrcapData {

  datatype Option<T> = None | Some(value: T)

  /** A persisted scalar; the contribution stores strings and one boolean. */
  datatype Value = StringValue(str: string) | BoolValue(flag: bool)

  type Store = map<string, Value>

  /** One `model.set(key, value)` call. */
  datatype Write = Write(key: string, value: Value)

  /** The writes one undoable unit of work performs, in execution order. */
  type Transaction = seq<Write>

  /** The entry under `key`, if any. */
  function Lookup(m: Store, key: string): Option<Value>
  {
    if key in m then Some(m[key]) else None
  }

  /** `DataModel.get(key, defaultValue)` with a string default: the stored
      string, or the default when no string is stored under `key`. */
  function GetString(m: Store, key: string, defaultValue: string): string
  {
    match Lookup(m, key)
    case Some(StringValue(s)) => s
    case _ => defaultValue
  }

  /** `DataModel.get(key, defaultValue)` with a boolean default. */
  function GetBool(m: Store, key: string, defaultValue: bool): bool
  {
    match Lookup(m, key)
    case Some(BoolValue(b)) => b
    case _ => defaultValue
  }

  /** The keys a transaction writes. */
  function Written(t: Transaction): set<string>
  {
    set i | 0 <= i < |t| :: t[i].key
  }

  lemma WrittenCons(t: Transaction)
    requires t != []
    ensures Written(t) == {t[0].key} + Written(t[1..])
  {
  }

  /** A one-write transaction writes exactly its key. */
  lemma WrittenSingle(w: Write)
    ensures Written([w]) == {w.key}
  {
    assert [w][0].key == w.key;
  }

  /** Runs the writes of `t` on `m`, one after another. Exactly the keys
      already present and the keys written are present afterwards. */
  function Apply(m: Store, t: Transaction): (r: Store)
    ensures r.Keys == m.Keys + Written(t)
    decreases |t|
  {
    if t == [] then m
    else
      WrittenCons(t);
      Apply(m[t[0].key := t[0].value], t[1..])
  }

  /** `m'` holds the same entry as `m` under every key outside `keys`. */
  ghost predicate AgreeExcept(m: Store, m': Store, keys: set<string>)
  {
    forall k :: k !in keys ==> Lookup(m', k) == Lookup(m, k)
  }

  /** A key no write of `t` touches keeps its entry, or its absence. */
  lemma {:induction false} ApplyUnwritten(m: Store, t: Transaction, key: string)
    requires key !in Written(t)
    ensures Lookup(Apply(m, t), key) == Lookup(m, key)
    decreases |t|
  {
    if t != [] {
      WrittenCons(t);
      ApplyUnwritten(m[t[0].key := t[0].value], t[1..], key);
    }
  }

  /** The last write to a key decides its entry. */
  lemma {:induction false} ApplyLastWrite(m: Store, t: Transaction, i: nat)
    requires i < |t|
    requires forall j :: i < j < |t| ==> t[j].key != t[i].key
    ensures Lookup(Apply(m, t), t[i].key) == Some(t[i].value)
    decreases |t|
  {
    WrittenCons(t);
    if i == 0 {
      ApplyUnwritten(m[t[0].key := t[0].value], t[1..], t[0].key);
    } else {
      ApplyLastWrite(m[t[0].key := t[0].value], t[1..], i - 1);
    }
  }

  /** A transaction changes nothing outside the keys it writes. */
  lemma ApplyFrame(m: Store, t: Transaction)
    ensures AgreeExcept(m, Apply(m, t), Written(t))
  {
    forall k | k !in Written(t) ensures Lookup(Apply(m, t), k) == Lookup(m, k) {
      ApplyUnwritten(m, t, k);
    }
  }
}
