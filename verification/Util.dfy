/**
 * The helper layer of the generator: a deep merge of configuration records,
 * iteration helpers that stop at the first truthy callback result, folds
 * over arrays and objects, and integer clamps and ranges.
 *
 * Callbacks are pure functions here; JavaScript truthiness of a callback
 * result is the `truthy` parameter.
 */
module Util {
  import opened Wrappers
  import opened Ordered

  // ---------------------------------------------------------------------------
  // JavaScript values and `mergeDeep`
  // ---------------------------------------------------------------------------

  /** A JavaScript value, as far as the deep merge inspects it. Numbers are integers. */
  datatype JsValue =
    | Undefined
    | Null
    | Bool(b: bool)
    | Num(n: int)
    | Str(s: string)
    | Arr(items: seq<JsValue>)
    | Func(name: string)
    | Obj(fields: OrderedMap<string, JsValue>)

  /** The `typeof` operator. */
  function TypeOf(v: JsValue): string
  {
    match v
    case Undefined => "undefined"
    case Bool(_) => "boolean"
    case Num(_) => "number"
    case Str(_) => "string"
    case Func(_) => "function"
    case _ => "object"
  }

  /** JavaScript truthiness: `undefined`, `null`, `false`, `0` and `""` are falsy. */
  predicate Truthy(v: JsValue)
  {
    match v
    case Undefined => false
    case Null => false
    case Bool(b) => b
    case Num(n) => n != 0
    case Str(s) => s != ""
    case _ => true
  }

  /** `isObject`: a plain keyed record, that is truthy, of type "object" and not an array. */
  predicate IsObject(v: JsValue)
    ensures IsObject(v) <==> Truthy(v) && TypeOf(v) == "object" && !v.Arr?
  {
    v.Obj?
  }

  /** `obj[key]`: the property's value, or `undefined` when it is absent. */
  function Prop(o: OrderedMap<string, JsValue>, key: string): JsValue
  {
    if key in o.vals then o.vals[key] else Undefined
  }

  /** A fresh `{}`. */
  const EMPTY_OBJECT: JsValue := Obj(Empty())

  /** `mergeDeep(target, ...sources)`: the sources are merged into the target one after the other. */
  function MergeDeep(target: JsValue, sources: seq<JsValue>): (r: JsValue)
    ensures sources == [] ==> r == target
    ensures !IsObject(target) ==> r == target
    ensures IsObject(target) ==> IsObject(r)
    decreases |sources|
  {
    if sources == [] then target
    else MergeDeep(MergeInto(target, sources[0]), sources[1..])
  }

  /** `mergeDeep(target, source)` with a single source. */
  function MergeInto(target: JsValue, source: JsValue): (r: JsValue)
    ensures !IsObject(target) || !IsObject(source) ==> r == target
    ensures IsObject(target) ==> IsObject(r)
    decreases source, if source.Obj? then |source.fields.keys| + 1 else 0
  {
    if IsObject(target) && IsObject(source) then Obj(MergeFields(target.fields, source.fields, 0))
    else target
  }

  /** The loop `for (const key in source)` from the `i`-th key of the source on. */
  function MergeFields(t: OrderedMap<string, JsValue>, s: OrderedMap<string, JsValue>, i: nat)
    : OrderedMap<string, JsValue>
    decreases Obj(s), if i <= |s.keys| then |s.keys| - i else 0
  {
    if i >= |s.keys| then t
    else
      var key := s.keys[i];
      var tv, sv := Prop(t, key), Prop(s, key);
      var merged := if IsObject(sv) then MergeInto(if Truthy(tv) then tv else EMPTY_OBJECT, sv) else sv;
      MergeFields(t.Put(key, merged), s, i + 1)
  }

  /**
   * What one key of the target holds after its source value `sv` is merged
   * over its old value `tv`: a record is merged into the old value (into a
   * fresh `{}` when the old value is falsy), anything else replaces it.
   */
  function Merged(tv: JsValue, sv: JsValue): JsValue
  {
    if IsObject(sv) then MergeInto(if Truthy(tv) then tv else EMPTY_OBJECT, sv)
    else sv
  }

  /** The keys of `ks`, in order, that `m` does not hold yet. */
  function Unknown(ks: seq<string>, m: map<string, JsValue>): seq<string>
  {
    if ks == [] then []
    else (if ks[0] in m then [] else [ks[0]]) + Unknown(ks[1..], m)
  }

  lemma {:induction false} UnknownAfterPut(ks: seq<string>, m: map<string, JsValue>, k: string, v: JsValue)
    requires k !in ks
    ensures Unknown(ks, m[k := v]) == Unknown(ks, m)
  {
    if ks != [] {
      UnknownAfterPut(ks[1..], m, k, v);
    }
  }

  /** One turn of the loop. */
  lemma MergeFieldsStep(t: OrderedMap<string, JsValue>, s: OrderedMap<string, JsValue>, i: nat)
    requires i < |s.keys|
    ensures MergeFields(t, s, i) ==
            MergeFields(t.Put(s.keys[i], Merged(Prop(t, s.keys[i]), Prop(s, s.keys[i]))), s, i + 1)
  {
  }

  /** Key by key, the loop keeps what the source lacks and merges what it has. */
  lemma {:induction false} MergeFieldsAt(t: OrderedMap<string, JsValue>, s: OrderedMap<string, JsValue>, i: nat, k: string)
    requires s.Valid() && i <= |s.keys|
    ensures k in MergeFields(t, s, i).vals <==> k in t.vals || k in s.keys[i..]
    ensures Prop(MergeFields(t, s, i), k) ==
            if k in s.keys[i..] then Merged(Prop(t, k), s.vals[k]) else Prop(t, k)
    decreases |s.keys| - i
  {
    if i < |s.keys| {
      var key := s.keys[i];
      var t' := t.Put(key, Merged(Prop(t, key), Prop(s, key)));
      MergeFieldsStep(t, s, i);
      MergeFieldsAt(t', s, i + 1, k);
      assert s.keys[i..] == [key] + s.keys[i + 1..];
      KeyNotLater(s, i);
      MergeFieldsAtCase(t, s, MergeFields(t', s, i + 1), key, s.keys[i + 1..], k);
    }
  }

  /** The step of MergeFieldsAt: the facts after the remaining keys, moved back over the current key. */
  lemma MergeFieldsAtCase(t: OrderedMap<string, JsValue>, s: OrderedMap<string, JsValue>,
                          r: OrderedMap<string, JsValue>, key: string, rest: seq<string>, k: string)
    requires key in s.vals && key !in rest
    requires k in rest ==> k in s.vals
    requires var t' := t.Put(key, Merged(Prop(t, key), Prop(s, key)));
             && (k in r.vals <==> k in t'.vals || k in rest)
             && Prop(r, k) == if k in rest then Merged(Prop(t', k), s.vals[k]) else Prop(t', k)
    ensures k in r.vals <==> k in t.vals || k in [key] + rest
    ensures Prop(r, k) == if k in [key] + rest then Merged(Prop(t, k), s.vals[k]) else Prop(t, k)
  {
  }

  /** Keys are distinct: a key does not come back later in the key order. */
  lemma KeyNotLater(s: OrderedMap<string, JsValue>, i: nat)
    requires s.Valid() && i < |s.keys|
    ensures s.keys[i] !in s.keys[i + 1..]
  {
    forall j | i + 1 <= j < |s.keys| ensures s.keys[j] != s.keys[i] { }
  }

  /** The loop keeps the target's key order and appends the source's new keys in source order. */
  lemma {:induction false} MergeFieldsKeys(t: OrderedMap<string, JsValue>, s: OrderedMap<string, JsValue>, i: nat)
    requires s.Valid() && i <= |s.keys|
    ensures MergeFields(t, s, i).keys == t.keys + Unknown(s.keys[i..], t.vals)
    decreases |s.keys| - i
  {
    if i < |s.keys| {
      var key := s.keys[i];
      var t' := t.Put(key, Merged(Prop(t, key), Prop(s, key)));
      MergeFieldsStep(t, s, i);
      MergeFieldsKeys(t', s, i + 1);
      var rest := s.keys[i + 1..];
      KeyNotLater(s, i);
      assert s.keys[i..] == [key] + rest;
      PutKeys(t, key, Merged(Prop(t, key), Prop(s, key)), rest);
    } else {
      assert s.keys[i..] == [];
    }
  }

  /** Assigning `key` and then the keys of `rest` adds the unknown ones among `[key] + rest`, in order. */
  lemma PutKeys(t: OrderedMap<string, JsValue>, key: string, v: JsValue, rest: seq<string>)
    requires key !in rest
    ensures t.Put(key, v).keys + Unknown(rest, t.Put(key, v).vals) == t.keys + Unknown([key] + rest, t.vals)
  {
    UnknownAfterPut(rest, t.vals, key, v);
    assert ([key] + rest)[1..] == rest;
  }

  /** The loop keeps the target a well-formed record. */
  lemma {:induction false} MergeFieldsValid(t: OrderedMap<string, JsValue>, s: OrderedMap<string, JsValue>, i: nat)
    requires t.Valid()
    ensures MergeFields(t, s, i).Valid()
    decreases |s.keys| - i
  {
    if i < |s.keys| {
      MergeFieldsStep(t, s, i);
      MergeFieldsValid(t.Put(s.keys[i], Merged(Prop(t, s.keys[i]), Prop(s, s.keys[i]))), s, i + 1);
    }
  }

  /**
   * `mergeDeep(target, source)` for two records, key by key: a key the source
   * lacks keeps its value; a non-record source value (array, scalar, function,
   * null) replaces the target's value outright; a record source value is
   * merged recursively into the target's value, into a fresh `{}` when that
   * value is falsy, and leaves a truthy non-record target value as it was.
   */
  lemma MergeIntoAt(target: JsValue, source: JsValue, k: string)
    requires IsObject(target) && IsObject(source) && source.fields.Valid()
    ensures var r := MergeInto(target, source).fields;
            var tv := Prop(target.fields, k);
            && (k in r.vals <==> k in target.fields.vals || k in source.fields.vals)
            && (k !in source.fields.vals ==> Prop(r, k) == tv)
            && (k in source.fields.vals && !IsObject(source.fields.vals[k]) ==>
                  Prop(r, k) == source.fields.vals[k])
            && (k in source.fields.vals && IsObject(source.fields.vals[k]) && !Truthy(tv) ==>
                  Prop(r, k) == MergeInto(EMPTY_OBJECT, source.fields.vals[k]))
            && (k in source.fields.vals && IsObject(source.fields.vals[k]) && Truthy(tv) ==>
                  Prop(r, k) == MergeInto(tv, source.fields.vals[k]))
            && (k in source.fields.vals && IsObject(source.fields.vals[k]) && Truthy(tv) && !IsObject(tv) ==>
                  Prop(r, k) == tv)
  {
    MergeFieldsAt(target.fields, source.fields, 0, k);
    assert source.fields.keys[0..] == source.fields.keys;
  }

  /** `mergeDeep(target, source)` keeps the target's keys in place and appends the new ones in source order. */
  lemma MergeIntoKeys(target: JsValue, source: JsValue)
    requires IsObject(target) && IsObject(source) && target.fields.Valid() && source.fields.Valid()
    ensures MergeInto(target, source).fields.Valid()
    ensures MergeInto(target, source).fields.keys ==
            target.fields.keys + Unknown(source.fields.keys, target.fields.vals)
  {
    MergeFieldsValid(target.fields, source.fields, 0);
    MergeFieldsKeys(target.fields, source.fields, 0);
    assert source.fields.keys[0..] == source.fields.keys;
  }

  // ---------------------------------------------------------------------------
  // Early-exit iteration: forArr, forArrAsync, forObj, forMap, forRange
  // ---------------------------------------------------------------------------

  /** The index of the first truthy result, if any. */
  function FirstTruthy<V>(rs: seq<V>, truthy: V -> bool): (r: Option<nat>)
    ensures r.Some? ==> r.value < |rs| && truthy(rs[r.value])
    ensures r.Some? ==> forall j :: 0 <= j < r.value ==> !truthy(rs[j])
    ensures r.None? ==> forall j :: 0 <= j < |rs| ==> !truthy(rs[j])
  {
    if rs == [] then None
    else if truthy(rs[0]) then Some(0)
    else
      match FirstTruthy(rs[1..], truthy)
      case None => None
      case Some(k) => Some(k + 1)
  }

  /** A truthy result with no truthy result before it is the first truthy result. */
  lemma FirstTruthyIs<V>(rs: seq<V>, truthy: V -> bool, i: nat)
    requires i < |rs| && truthy(rs[i])
    requires forall j :: 0 <= j < i ==> !truthy(rs[j])
    ensures FirstTruthy(rs, truthy) == Some(i)
  {
  }

  /** Without a truthy result there is no first one. */
  lemma FirstTruthyNone<V>(rs: seq<V>, truthy: V -> bool)
    requires forall j :: 0 <= j < |rs| ==> !truthy(rs[j])
    ensures FirstTruthy(rs, truthy) == None
  {
  }

  /** The last element, or `undefined` for an empty sequence. */
  function Last<V>(rs: seq<V>): Option<V>
  {
    if rs == [] then None else Some(rs[|rs| - 1])
  }

  /** Where a loop that may break on a truthy result stops: the index it breaks at, if it does. */
  function BreakAt<V>(rs: seq<V>, truthy: V -> bool, breakOnReturn: bool): Option<nat>
  {
    if breakOnReturn then FirstTruthy(rs, truthy) else None
  }

  /** The callback results of a `for (let i = 0; i < items.length; i++)` loop. */
  function ArrResults<A, V>(items: seq<A>, onLoop: (A, nat) -> V): (rs: seq<V>)
    ensures |rs| == |items|
    ensures forall i :: 0 <= i < |items| ==> rs[i] == onLoop(items[i], i)
  {
    seq(|items|, i requires 0 <= i < |items| => onLoop(items[i], i))
  }

  /**
   * `forArr(items, onLoop, breakOnReturn)`: calls `onLoop` on the items in
   * order. When breaking, it stops at the first truthy result and returns it;
   * otherwise it calls every item and returns the last result. `calls` is the
   * number of callback invocations.
   */
  method ForArr<A, V>(items: seq<A>, onLoop: (A, nat) -> V, truthy: V -> bool, breakOnReturn: bool)
    returns (res: Option<V>, calls: nat)
    ensures var rs := ArrResults(items, onLoop);
            match BreakAt(rs, truthy, breakOnReturn)
            case Some(k) => calls == k + 1 && res == Some(rs[k])
            case None => calls == |items| && res == Last(rs)
  {
    ghost var rs := ArrResults(items, onLoop);
    res := None;
    var i := 0;
    while i < |items|
      invariant 0 <= i <= |items|
      invariant res == Last(rs[..i])
      invariant breakOnReturn ==> forall j :: 0 <= j < i ==> !truthy(rs[j])
    {
      var r := onLoop(items[i], i);
      res := Some(r);
      if truthy(r) && breakOnReturn {
        FirstTruthyIs(rs, truthy, i);
        calls := i + 1;
        return;
      }
      i := i + 1;
    }
    assert rs[..i] == rs;
    if breakOnReturn {
      FirstTruthyNone(rs, truthy);
    }
    calls := i;
  }

  /** `forArrAsync`, awaited sequentially: like `forArr`, but it returns `undefined` unless it breaks. */
  method ForArrAsync<A, V>(items: seq<A>, onLoop: (A, nat) -> V, truthy: V -> bool, breakOnReturn: bool)
    returns (res: Option<V>, calls: nat)
    ensures var rs := ArrResults(items, onLoop);
            match BreakAt(rs, truthy, breakOnReturn)
            case Some(k) => calls == k + 1 && res == Some(rs[k])
            case None => calls == |items| && res == None
  {
    ghost var rs := ArrResults(items, onLoop);
    var i := 0;
    while i < |items|
      invariant 0 <= i <= |items|
      invariant breakOnReturn ==> forall j :: 0 <= j < i ==> !truthy(rs[j])
    {
      var r := onLoop(items[i], i);
      if truthy(r) && breakOnReturn {
        FirstTruthyIs(rs, truthy, i);
        return Some(r), i + 1;
      }
      i := i + 1;
    }
    if breakOnReturn {
      FirstTruthyNone(rs, truthy);
    }
    return None, i;
  }

  /** The callback results of a loop over `Object.keys(obj)`. */
  function ObjResults<K, O, V>(obj: OrderedMap<K, O>, onLoop: (O, K, nat) -> V): (rs: seq<V>)
    requires obj.Valid()
    ensures |rs| == |obj.keys|
    ensures forall i :: 0 <= i < |rs| ==> rs[i] == onLoop(obj.vals[obj.keys[i]], obj.keys[i], i)
  {
    seq(|obj.keys|, i requires 0 <= i < |obj.keys| => onLoop(obj.vals[obj.keys[i]], obj.keys[i], i))
  }

  /**
   * `forObj(obj, onLoop, breakOnReturn)`: like `forArr` over the values of
   * `obj` in key order, the callback also receiving the key.
   */
  method ForObj<O, V>(obj: OrderedMap<string, O>, onLoop: (O, string, nat) -> V, truthy: V -> bool, breakOnReturn: bool)
    returns (res: Option<V>, calls: nat)
    requires obj.Valid()
    ensures var rs := ObjResults(obj, onLoop);
            match BreakAt(rs, truthy, breakOnReturn)
            case Some(k) => calls == k + 1 && res == Some(rs[k])
            case None => calls == |obj.keys| && res == Last(rs)
  {
    ghost var rs := ObjResults(obj, onLoop);
    var keys := obj.keys;
    res := None;
    var i := 0;
    while i < |keys|
      invariant 0 <= i <= |keys|
      invariant res == Last(rs[..i])
      invariant breakOnReturn ==> forall j :: 0 <= j < i ==> !truthy(rs[j])
    {
      var key := keys[i];
      var r := onLoop(obj.vals[key], key, i);
      res := Some(r);
      if truthy(r) && breakOnReturn {
        FirstTruthyIs(rs, truthy, i);
        calls := i + 1;
        return;
      }
      i := i + 1;
    }
    assert rs[..i] == rs;
    if breakOnReturn {
      FirstTruthyNone(rs, truthy);
    }
    calls := i;
  }

  /** `forMap(map, onLoop, breakOnReturn)`: like `forObj` over a `Map`, returning `undefined` unless it breaks. */
  method ForMap<K, O, V>(m: OrderedMap<K, O>, onLoop: (O, K, nat) -> V, truthy: V -> bool, breakOnReturn: bool)
    returns (res: Option<V>, calls: nat)
    requires m.Valid()
    ensures var rs := ObjResults(m, onLoop);
            match BreakAt(rs, truthy, breakOnReturn)
            case Some(k) => calls == k + 1 && res == Some(rs[k])
            case None => calls == |m.keys| && res == None
  {
    ghost var rs := ObjResults(m, onLoop);
    var keys := m.keys;
    var i := 0;
    while i < |keys|
      invariant 0 <= i <= |keys|
      invariant breakOnReturn ==> forall j :: 0 <= j < i ==> !truthy(rs[j])
    {
      var key := keys[i];
      var item := m.vals[key];
      var r := onLoop(item, key, i);
      if truthy(r) && breakOnReturn {
        FirstTruthyIs(rs, truthy, i);
        return Some(r), i + 1;
      }
      i := i + 1;
    }
    if breakOnReturn {
      FirstTruthyNone(rs, truthy);
    }
    return None, i;
  }

  /** The integers `low, low + 1, ..., high`. */
  function Range(low: int, high: int): (r: seq<int>)
    ensures |r| == if low <= high then high - low + 1 else 0
    ensures forall i :: 0 <= i < |r| ==> r[i] == low + i
    decreases if low <= high then high - low + 1 else 0
  {
    if low > high then []
    else
      var rest := Range(low + 1, high);
      assert forall i :: 1 <= i < |rest| + 1 ==> ([low] + rest)[i] == rest[i - 1];
      [low] + rest
  }

  /** The callback results over a range of integers. */
  function RangeResults<V>(ns: seq<int>, onLoop: int -> V): (rs: seq<V>)
    ensures |rs| == |ns|
    ensures forall i :: 0 <= i < |ns| ==> rs[i] == onLoop(ns[i])
  {
    seq(|ns|, i requires 0 <= i < |ns| => onLoop(ns[i]))
  }

  /**
   * `forRange(from, to, onLoop, breakOnReturn)` with `from = low`, `to = high`:
   * calls `onLoop` on `low` up to `high` inclusive, in ascending order, and
   * returns `undefined` unless it breaks on a truthy result. `visited` lists
   * the arguments passed.
   */
  method ForRange<V>(low: int, high: int, onLoop: int -> V, truthy: V -> bool, breakOnReturn: bool)
    returns (res: Option<V>, visited: seq<int>)
    ensures var rs := RangeResults(Range(low, high), onLoop);
            match BreakAt(rs, truthy, breakOnReturn)
            case Some(k) => visited == Range(low, high)[..k + 1] && res == Some(rs[k])
            case None => visited == Range(low, high) && res == None
  {
    ghost var all := Range(low, high);
    ghost var rs := RangeResults(all, onLoop);
    visited := [];
    var i := low;
    while i <= high
      invariant low <= i <= high + 1 || (low > high && i == low)
      invariant visited == all[..i - low]
      invariant breakOnReturn ==> forall j :: 0 <= j < i - low ==> !truthy(rs[j])
      decreases high - i
    {
      assert all[i - low] == i;
      visited := visited + [i];
      assert visited == all[..i - low + 1];
      var r := onLoop(i);
      assert rs[i - low] == r;
      if truthy(r) && breakOnReturn {
        FirstTruthyIs(rs, truthy, i - low);
        return Some(r), visited;
      }
      i := i + 1;
    }
    if breakOnReturn {
      FirstTruthyNone(rs, truthy);
    }
    res := None;
  }

  // ---------------------------------------------------------------------------
  // coalesceArr / coalesceObj
  // ---------------------------------------------------------------------------

  /** The final `then ? then(value) : value` step; an omitted `then` is the identity. */
  function ApplyThen<V>(thenStep: Option<V -> V>, value: V): V
  {
    match thenStep
    case Some(f) => f(value)
    case None => value
  }

  /** Left fold of `onLoop` over the items items, passing each item's index. */
  function FoldArr<A, V>(items: seq<A>, initial: V, onLoop: (A, V, nat) -> V): V
  {
    if items == [] then initial
    else onLoop(items[|items| - 1], FoldArr(items[..|items| - 1], initial, onLoop), |items| - 1)
  }

  /** Left fold of `onLoop` over the values of `obj` in key order, passing key and index. */
  function FoldObj<O, V>(obj: OrderedMap<string, O>, n: nat, initial: V, onLoop: (O, V, string, nat) -> V): V
    requires obj.Valid() && n <= |obj.keys|
  {
    if n == 0 then initial
    else onLoop(obj.vals[obj.keys[n - 1]], FoldObj(obj, n - 1, initial, onLoop), obj.keys[n - 1], n - 1)
  }

  /** `coalesceArr(items, initial, onLoop, then)`. */
  method CoalesceArr<A, V>(items: seq<A>, initial: V, onLoop: (A, V, nat) -> V, thenStep: Option<V -> V>)
    returns (r: V)
    ensures r == ApplyThen(thenStep, FoldArr(items, initial, onLoop))
  {
    var value := initial;
    for i := 0 to |items|
      invariant value == FoldArr(items[..i], initial, onLoop)
    {
      assert items[..i + 1][..i] == items[..i];
      value := onLoop(items[i], value, i);
    }
    assert items[..|items|] == items;
    r := ApplyThen(thenStep, value);
  }

  /** `coalesceObj(obj, initial, onLoop, then)`. */
  method CoalesceObj<O, V>(obj: OrderedMap<string, O>, initial: V, onLoop: (O, V, string, nat) -> V, thenStep: Option<V -> V>)
    returns (r: V)
    requires obj.Valid()
    ensures r == ApplyThen(thenStep, FoldObj(obj, |obj.keys|, initial, onLoop))
  {
    var keys := obj.keys;
    var value := initial;
    for i := 0 to |keys|
      invariant value == FoldObj(obj, i, initial, onLoop)
    {
      var key := keys[i];
      value := onLoop(obj.vals[key], value, key, i);
    }
    r := ApplyThen(thenStep, value);
  }

  // ---------------------------------------------------------------------------
  // clamp, clampAny, generateRange
  // ---------------------------------------------------------------------------

  /** `clamp(v, min, max)` with the default `snapPoint` of 0. */
  function Clamp(v: int, min: int, max: int): (r: int)
    ensures min <= max ==> min <= r <= max
    ensures min <= v <= max ==> r == v
    ensures v < min ==> r == min
    ensures min <= v && max < v ==> r == max
  {
    if v < min then min else if v > max then max else v
  }

  /** Clamping an already clamped value changes nothing. */
  lemma ClampIdempotent(v: int, min: int, max: int)
    requires min <= max
    ensures Clamp(Clamp(v, min, max), min, max) == Clamp(v, min, max)
  {
  }

  /** A numeric `clampAny` argument that may be `null`; `null` and `0` are falsy. */
  predicate Falsy(x: Option<int>)
  {
    x.None? || x.value == 0
  }

  /**
   * `clampAny(v, min, max)` on numbers: `null` stays `null`, and a falsy
   * bound counts as absent, so only the truthy bounds are enforced.
   */
  function ClampAny(v: Option<int>, min: Option<int>, max: Option<int>): (r: Option<int>)
    ensures r.None? <==> v.None?
    ensures r.Some? ==> r == v || r == min || r == max
    ensures v.Some? && (Falsy(min) || min.value <= v.value) && (Falsy(max) || v.value <= max.value) ==> r == v
    ensures v.Some? && !Falsy(min) && (Falsy(max) || min.value <= max.value) ==> min.value <= r.value
    ensures v.Some? && !Falsy(max) && (Falsy(min) || min.value <= max.value) ==> r.value <= max.value
    ensures v.Some? && !Falsy(min) && !Falsy(max) ==> r.value == Clamp(v.value, min.value, max.value)
    ensures r.Some? && Falsy(min) ==> r == v || r == max
    ensures r.Some? && Falsy(max) ==> r == v || r == min
  {
    if v.None? then None
    else if Falsy(min) && Falsy(max) then v
    else if Falsy(min) then (if v.value > max.value then max else v)
    else if Falsy(max) then (if v.value < min.value then min else v)
    else if v.value < min.value then min
    else if v.value > max.value then max
    else v
  }

  /** A zero lower bound is no bound at all: `clampAny(-5, 0, 10)` is `-5`. */
  lemma ClampAnyZeroBound()
    ensures ClampAny(Some(-5), Some(0), Some(10)) == Some(-5)
  {
  }

  /**
   * `generateRange(from, to, interval)` with `from = low`, `to = high`:
   * `low, low + interval, ...` while the value does not exceed `high`.
   */
  method GenerateRange(low: int, high: int, interval: int) returns (a: seq<int>)
    requires interval > 0
    ensures forall i :: 0 <= i < |a| ==> a[i] == low + i * interval && a[i] <= high
    ensures low + |a| * interval > high
    ensures low > high ==> a == []
  {
    a := [];
    var i := low;
    while i <= high
      invariant i == low + |a| * interval
      invariant forall j :: 0 <= j < |a| ==> a[j] == low + j * interval && a[j] <= high
      invariant low > high ==> a == []
      decreases high - i
    {
      a := a + [i];
      i := i + interval;
    }
  }
}
