/** The process-wide tag-to-implementation maps (`std::map` filled by
    `emplace` at load time) and their `find`-or-throw lookup. */
module Registries {
  import opened Common

  /** `std::map::emplace`: inserts only when the key is absent, so an earlier
      entry for the same key is kept. */
  function Emplaced<K, V>(m: map<K, V>, k: K, v: V): map<K, V> {
    if k in m then m else m[k := v]
  }

  /** The registry obtained by emplacing the entries of `es`, in order, into `m`. */
  function RegisteredOnto<K, V>(m: map<K, V>, es: seq<(K, V)>): map<K, V>
    decreases |es|
  {
    if es == [] then m
    else
      var last := es[|es| - 1];
      Emplaced(RegisteredOnto(m, es[..|es| - 1]), last.0, last.1)
  }

  /** The registry built from an empty map at start-up. */
  function Registered<K, V>(es: seq<(K, V)>): map<K, V> {
    RegisteredOnto(map[], es)
  }

  /** The keys mentioned by a registration list. */
  ghost function KeysOf<K, V>(es: seq<(K, V)>): set<K> {
    set i | 0 <= i < |es| :: es[i].0
  }

  /** The registry holds exactly the old keys and the registered ones. */
  lemma {:induction false} RegisteredKeys<K, V>(m: map<K, V>, es: seq<(K, V)>)
    ensures RegisteredOnto(m, es).Keys == m.Keys + KeysOf(es)
    decreases |es|
  {
    if es != [] {
      var init := es[..|es| - 1];
      RegisteredKeys(m, init);
      assert KeysOf(es) == KeysOf(init) + {es[|es| - 1].0} by {
        forall k | k in KeysOf(es) ensures k in KeysOf(init) + {es[|es| - 1].0} {
          var i :| 0 <= i < |es| && es[i].0 == k;
          if i < |es| - 1 { assert init[i] == es[i]; }
        }
        forall k | k in KeysOf(init) ensures k in KeysOf(es) {
          var i :| 0 <= i < |init| && init[i].0 == k;
          assert es[i] == init[i];
        }
      }
    }
  }

  /** An entry already present is never replaced by later registrations. */
  lemma {:induction false} RegisteredKeepsOld<K, V>(m: map<K, V>, es: seq<(K, V)>, k: K)
    requires k in m
    ensures k in RegisteredOnto(m, es) && RegisteredOnto(m, es)[k] == m[k]
    decreases |es|
  {
    if es != [] {
      RegisteredKeepsOld(m, es[..|es| - 1], k);
    }
  }

  /** The first registration for a key is the one the registry keeps: `emplace`
      never overwrites. */
  lemma {:induction false} FirstRegistrationWins<K, V>(m: map<K, V>, es: seq<(K, V)>, i: nat)
    requires i < |es|
    requires es[i].0 !in m
    requires forall j :: 0 <= j < i ==> es[j].0 != es[i].0
    ensures es[i].0 in RegisteredOnto(m, es)
    ensures RegisteredOnto(m, es)[es[i].0] == es[i].1
    decreases |es|
  {
    var init := es[..|es| - 1];
    if i == |es| - 1 {
      RegisteredKeys(m, init);
      forall j | 0 <= j < |init| ensures init[j].0 != es[i].0 {
        assert init[j] == es[j];
      }
    } else {
      assert init[i] == es[i];
      forall j | 0 <= j < i ensures init[j].0 != init[i].0 {
        assert init[j] == es[j];
      }
      FirstRegistrationWins(m, init, i);
    }
  }

  /** With pairwise distinct keys, every entry is what the registry holds
      under its key. */
  lemma DistinctRegistered<K, V>(es: seq<(K, V)>, i: nat)
    requires i < |es|
    requires forall j, k :: 0 <= j < k < |es| ==> es[j].0 != es[k].0
    ensures es[i].0 in Registered(es) && Registered(es)[es[i].0] == es[i].1
  {
    FirstRegistrationWins(map[], es, i);
  }

  /** A key no registration mentions stays absent. */
  lemma UnregisteredIsAbsent<K, V>(es: seq<(K, V)>, k: K)
    requires forall i :: 0 <= i < |es| ==> es[i].0 != k
    ensures k !in Registered(es)
  {
    RegisteredKeys(map[], es);
  }

  /** `map::find` followed by `throw` when it returns `end()`. */
  function Find<K, V>(m: map<K, V>, k: K, missing: Error): (r: Result<V>)
    ensures r.Success? <==> k in m
    ensures r.Success? ==> r.value == m[k]
    ensures r.Failure? ==> r.error == missing
  {
    if k in m then Success(m[k]) else Failure(missing)
  }

  /** A registry as the source holds it: one mutable map, filled at load time. */
  class Registry<K(==), V> {
    var entries: map<K, V>

    constructor ()
      ensures entries == map[]
    {
      entries := map[];
    }

    /** One load-time `emplace` call. */
    method Emplace(k: K, v: V) returns (inserted: bool)
      modifies this
      ensures inserted == (k !in old(entries))
      ensures entries == Emplaced(old(entries), k, v)
    {
      inserted := k !in entries;
      if inserted {
        entries := entries[k := v];
      }
    }

    /** The static initialisers of one translation unit, run in order. */
    method EmplaceAll(es: seq<(K, V)>)
      modifies this
      ensures entries == RegisteredOnto(old(entries), es)
    {
      var i := 0;
      while i < |es|
        invariant 0 <= i <= |es|
        invariant entries == RegisteredOnto(old(entries), es[..i])
      {
        var _ := Emplace(es[i].0, es[i].1);
        assert es[..i + 1][..i] == es[..i];
        i := i + 1;
      }
      assert es[..|es|] == es;
    }
  }
}
