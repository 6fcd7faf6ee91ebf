/** The simulation context: a string-keyed store of dynamically typed values
    (the `Parameters` class over an unordered_map of std::any). */
module Context {
  import opened Common

  /** The value types the program stores: double, int, bool and std::string. */
  datatype Value = RealValue(r: real) | IntValue(i: int) | BoolValue(b: bool) | TextValue(s: string)

  /** The type argument of get<T>. */
  datatype Kind = RealKind | IntKind | BoolKind | TextKind

  function KindOf(v: Value): Kind
  {
    match v
    case RealValue(_) => RealKind
    case IntValue(_) => IntKind
    case BoolValue(_) => BoolKind
    case TextValue(_) => TextKind
  }

  type Store = map<string, Value>

  /** get<T>(key): throws on a missing key, and any_cast fails unless the stored
      type is exactly T (no conversion between int and double). */
  function Lookup(m: Store, key: string, want: Kind): (r: Result<Value>)
    ensures r.Ok? ==> key in m && r.value == m[key] && KindOf(r.value) == want
    ensures r.Err? ==> r.error == KeyNotFound(key) || r.error == TypeMismatch(key)
  {
    if key !in m then Err(KeyNotFound(key))
    else if KindOf(m[key]) != want then Err(TypeMismatch(key))
    else Ok(m[key])
  }

  function GetReal(m: Store, key: string): Result<real>
  {
    var v :- Lookup(m, key, RealKind);
    Ok(v.r)
  }

  function GetInt(m: Store, key: string): Result<int>
  {
    var v :- Lookup(m, key, IntKind);
    Ok(v.i)
  }

  function GetBool(m: Store, key: string): Result<bool>
  {
    var v :- Lookup(m, key, BoolKind);
    Ok(v.b)
  }

  function GetText(m: Store, key: string): Result<string>
  {
    var v :- Lookup(m, key, TextKind);
    Ok(v.s)
  }

  /** `key` holds a double: exactly when get<double>(key) succeeds. */
  predicate HasReal(m: Store, key: string)
  {
    key in m && m[key].RealValue?
  }

  /** Every key in `keys` holds a double. */
  predicate AllReal(m: Store, keys: seq<string>)
  {
    forall i :: 0 <= i < |keys| ==> HasReal(m, keys[i])
  }

  /** keys[i] is the first key, in reading order, whose get<double> throws. */
  predicate FirstFailureAt(m: Store, keys: seq<string>, i: int)
  {
    0 <= i < |keys| && !HasReal(m, keys[i]) && forall j :: 0 <= j < i ==> HasReal(m, keys[j])
  }

  /** A sequence of get<double> calls that stops at the first throw: it fails exactly
      when some key is not a double, with the error of the first such key. */
  ghost predicate FailsLikeReads<T>(m: Store, keys: seq<string>, r: Result<T>)
  {
    && (r.Ok? <==> AllReal(m, keys))
    && (r.Err? ==> exists i :: FirstFailureAt(m, keys, i) && GetReal(m, keys[i]) == Err(r.error))
  }

  /** A run of get<double> calls in the order given, stopping at the first throw. */
  function ReadReals(m: Store, keys: seq<string>): (r: Result<seq<real>>)
    ensures r.Ok? ==> |r.value| == |keys|
    ensures r.Ok? ==> forall i :: 0 <= i < |keys| ==> HasReal(m, keys[i]) && r.value[i] == m[keys[i]].r
    ensures FailsLikeReads(m, keys, r)
    decreases |keys|
  {
    if keys == [] then Ok([])
    else
      var x :- GetReal(m, keys[0]);
      var rest := ReadReals(m, keys[1..]);
      assert forall i :: 1 <= i < |keys| ==> keys[i] == keys[1..][i - 1];
      if rest.Err? then
        var j :| FirstFailureAt(m, keys[1..], j) && GetReal(m, keys[1..][j]) == Err(rest.error);
        assert FirstFailureAt(m, keys, j + 1);
        Err(rest.error)
      else
        Ok([x] + rest.value)
  }

  /** Two stores that hold the same entry (or none) under every key in `keys`. */
  predicate AgreeOn(m1: Store, m2: Store, keys: seq<string>)
  {
    forall i :: 0 <= i < |keys| ==>
      (keys[i] in m1 <==> keys[i] in m2) && (keys[i] in m1 ==> m1[keys[i]] == m2[keys[i]])
  }

  /** A run of get<double> calls sees nothing but the keys it reads. */
  lemma {:induction false} ReadRealsSeesOnlyItsKeys(m1: Store, m2: Store, keys: seq<string>)
    requires AgreeOn(m1, m2, keys)
    ensures ReadReals(m1, keys) == ReadReals(m2, keys)
    decreases |keys|
  {
    if keys != [] {
      assert AgreeOn(m1, m2, keys[1..]) by {
        forall i | 0 <= i < |keys| - 1
          ensures (keys[1..][i] in m1 <==> keys[1..][i] in m2)
        {
          assert keys[1..][i] == keys[i + 1];
        }
      }
      ReadRealsSeesOnlyItsKeys(m1, m2, keys[1..]);
      assert GetReal(m1, keys[0]) == GetReal(m2, keys[0]);
    }
  }

  lemma GetRealSucceeds(m: Store, key: string)
    ensures GetReal(m, key).Ok? <==> HasReal(m, key)
    ensures HasReal(m, key) ==> GetReal(m, key) == Ok(m[key].r)
    ensures key !in m ==> GetReal(m, key) == Err(KeyNotFound(key))
  {
  }

  /** After set(k, v), get with v's own type returns v. */
  lemma LookupAfterSet(m: Store, k: string, v: Value)
    ensures Lookup(m[k := v], k, KindOf(v)) == Ok(v)
  {
  }

  /** set(k, v) overwrites k and leaves every other key's lookup unchanged. */
  lemma SetOverwritesOnlyItsKey(m: Store, k: string, v: Value, k': string, want: Kind)
    ensures k' != k ==> Lookup(m[k := v], k', want) == Lookup(m, k', want)
    ensures k in m[k := v] && m[k := v][k] == v
    ensures (m[k := v]).Keys == m.Keys + {k}
  {
  }

  /** get on an absent key throws KeyNotFound for every requested type: there is no default. */
  lemma LookupMissing(m: Store, k: string, want: Kind)
    requires k !in m
    ensures Lookup(m, k, want) == Err(KeyNotFound(k))
    ensures Message(Lookup(m, k, want).error) == "Key not found: " + k
  {
  }

  /** get with a type other than the stored one fails, never converts. */
  lemma LookupWrongType(m: Store, k: string, want: Kind)
    requires k in m && KindOf(m[k]) != want
    ensures Lookup(m, k, want) == Err(TypeMismatch(k))
  {
  }

  /** contains(k) holds exactly when get(k) succeeds for some type, and then it
      succeeds for the stored type; when contains(k) is false every get throws. */
  lemma {:induction false} ContainsIffSomeGetSucceeds(m: Store, k: string)
    ensures (k in m) <==> exists want :: Lookup(m, k, want).Ok?
    ensures k in m ==> Lookup(m, k, KindOf(m[k])) == Ok(m[k])
    ensures k !in m ==> forall want :: Lookup(m, k, want) == Err(KeyNotFound(k))
  {
    if k in m {
      assert Lookup(m, k, KindOf(m[k])).Ok?;
    }
  }

  /** The mutable store. Copies are independent objects (C++ value semantics). */
  class Parameters {
    var data: Store

    /** The default constructor: an empty store. */
    constructor ()
      ensures data == map[]
    {
      data := map[];
    }

    /** The copy constructor: a fresh object holding the same entries. */
    constructor Copy(other: Parameters)
      ensures data == other.data
    {
      data := other.data;
    }

    /** set<T>(key, value): insert or overwrite. */
    method Set(key: string, value: Value)
      modifies this
      ensures data == old(data)[key := value]
    {
      data := data[key := value];
    }

    /** get<T>(key): a const lookup. */
    function Get(key: string, want: Kind): (r: Result<Value>)
      reads this
      ensures r.Ok? <==> key in data && KindOf(data[key]) == want
      ensures r.Ok? ==> r.value == data[key]
      ensures key !in data ==> r == Err(KeyNotFound(key))
      ensures key in data && KindOf(data[key]) != want ==> r == Err(TypeMismatch(key))
    {
      Lookup(data, key, want)
    }

    /** contains(key): a const membership test. */
    function Contains(key: string): (b: bool)
      reads this
      ensures b <==> exists want :: Get(key, want).Ok?
      ensures !b ==> forall want :: Get(key, want) == Err(KeyNotFound(key))
    {
      if key in data then
        assert Get(key, KindOf(data[key])).Ok?;
        true
      else
        false
    }
  }

  /** A freshly constructed store contains no key. */
  method FreshStoreIsEmpty(k: string) returns (found: bool)
    ensures !found
  {
    var p := new Parameters();
    found := p.Contains(k);
  }

  /** Mutating a copy leaves the original unchanged: the per-worker copy relies on this. */
  method CopyIsIndependent(original: Parameters, k: string, v: Value) returns (copy: Parameters)
    ensures fresh(copy)
    ensures original.data == old(original.data)
    ensures copy.data == original.data[k := v]
  {
    copy := new Parameters.Copy(original);
    copy.Set(k, v);
  }

  /** After set(k, v), contains(k) holds and get with v's type returns v. */
  method SetThenGet(p: Parameters, k: string, v: Value)
    modifies p
    ensures p.Contains(k) && p.Get(k, KindOf(v)) == Ok(v)
    ensures forall k' :: k' != k ==> (k' in p.data <==> k' in old(p.data))
  {
    p.Set(k, v);
  }
}
