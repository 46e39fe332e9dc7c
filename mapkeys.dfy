/**
 * Dictionary comprehensions that rename keys or parse values: `{f(k): v for k, v in d.items()}`
 * and `{k: parse(v) for k, v in d.items()}`, where a failing parse raises.
 */
module MapKeys {
  import opened Wrappers

  /** No two keys of `ks` are renamed to the same key. */
  predicate InjectiveOn<K, L(==)>(ks: set<K>, f: K -> L)
  {
    forall a, b :: a in ks && b in ks && f(a) == f(b) ==> a == b
  }

  /** `{f(k): v for k, v in m.items()}` */
  function Rekey<K, L, V>(m: map<K, V>, f: K -> L): (r: map<L, V>)
    requires InjectiveOn(m.Keys, f)
    ensures forall k :: k in m ==> f(k) in r && r[f(k)] == m[k]
    ensures forall l :: l in r ==> exists k :: k in m && f(k) == l
  {
    map k | k in m :: f(k) := m[k]
  }

  /** Renaming the keys and renaming them back gives the map it started from. */
  lemma RekeyInverse<K, L, V>(m: map<K, V>, f: K -> L, g: L -> K)
    requires InjectiveOn(m.Keys, f)
    requires forall k :: k in m ==> g(f(k)) == k
    ensures InjectiveOn(Rekey(m, f).Keys, g)
    ensures Rekey(Rekey(m, f), g) == m
  {
    var r := Rekey(m, f);
    forall a, b | a in r && b in r && g(a) == g(b)
      ensures a == b
    {
      var ka :| ka in m && f(ka) == a;
      var kb :| kb in m && f(kb) == b;
    }
    var back := Rekey(r, g);
    forall k | k in m
      ensures k in back && back[k] == m[k]
    {
      assert f(k) in r;
    }
    forall k | k in back
      ensures k in m
    {
      var l :| l in r && g(l) == k;
      var k0 :| k0 in m && f(k0) == l;
    }
  }

  /** `{k: enc(v) for k, v in m.items()}` */
  function MapValues<K, V, W>(m: map<K, V>, enc: V -> W): (r: map<K, W>)
    ensures r.Keys == m.Keys
    ensures forall k :: k in m ==> r[k] == enc(m[k])
  {
    map k | k in m :: enc(m[k])
  }

  /** `{k: parse(v) for k, v in m.items()}`: every value must parse, or the whole fails with `err`. */
  function TryValues<K, V, W>(m: map<K, V>, parse: V -> Result<W>, err: PyError): (r: Result<map<K, W>>)
    ensures r.Success? <==> forall k :: k in m ==> parse(m[k]).Success?
    ensures r.Success? ==> r.value.Keys == m.Keys
    ensures r.Success? ==> forall k :: k in m ==> r.value[k] == parse(m[k]).value
    ensures r.Failure? ==> r.error == err
  {
    if forall k :: k in m ==> parse(m[k]).Success? then Success(map k | k in m :: parse(m[k]).value)
    else Failure(err)
  }

  /** Encoding every value and parsing it back gives the map it started from. */
  lemma TryValuesInverse<K, V, W>(m: map<K, V>, enc: V -> W, parse: W -> Result<V>, err: PyError)
    requires forall k :: k in m ==> parse(enc(m[k])) == Success(m[k])
    ensures TryValues(MapValues(m, enc), parse, err) == Success(m)
  {
    var e := MapValues(m, enc);
    assert forall k :: k in e ==> parse(e[k]) == Success(m[k]);
    var r := TryValues(e, parse, err);
    assert r.value == m;
  }
}
