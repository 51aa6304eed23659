/** Overlaying environment variables: the loops of mergeEnv against first-match lookup. */
module MergeEnv {
  import Order

  datatype Option<+T> = None | Some(value: T)

  predicate Keyed(kv: string) { '=' in kv }

  function IndexEq(kv: string): (i: nat)
    requires Keyed(kv)
    ensures i < |kv| && kv[i] == '=' && '=' !in kv[..i]
  {
    if kv[0] == '=' then 0 else
    assert kv == [kv[0]] + kv[1..];
    var i := IndexEq(kv[1..]) + 1;
    assert kv[..i] == [kv[0]] + kv[1..][..i - 1];
    i
  }

  function Key(kv: string): (k: string)
    requires Keyed(kv)
    ensures '=' !in k
  {
    kv[..IndexEq(kv)]
  }

  function Value(kv: string): string
    requires Keyed(kv)
  {
    kv[IndexEq(kv) + 1..]
  }

  /** getenv: the value of the first entry for a key. */
  function Lookup(env: seq<string>, key: string): Option<string> {
    if env == [] then None
    else if Keyed(env[0]) && Key(env[0]) == key then Some(Value(env[0]))
    else Lookup(env[1..], key)
  }

  function Entry(key: string, value: string): string { key + "=" + value }

  /** The base entries that survive: a key already seen is dropped, an overridden one rewritten. */
  function Overlay(base: seq<string>, over: map<string, string>, seen: set<string>): seq<string>
    decreases |base|
  {
    if base == [] then []
    else if !Keyed(base[0]) then [base[0]] + Overlay(base[1..], over, seen)
    else if Key(base[0]) in seen then Overlay(base[1..], over, seen)
    else [Overlaid(base[0], over)] + Overlay(base[1..], over, seen + {Key(base[0])})
  }

  function Overlaid(kv: string, over: map<string, string>): string
    requires Keyed(kv)
  {
    if Key(kv) in over then Entry(Key(kv), over[Key(kv)]) else kv
  }

  function KeysOf(base: seq<string>): set<string> {
    if base == [] then {} else (if Keyed(base[0]) then {Key(base[0])} else {}) + KeysOf(base[1..])
  }

  function Extras(keys: seq<string>, over: map<string, string>): seq<string>
    requires forall k | k in keys :: k in over
  {
    if keys == [] then [] else [Entry(keys[0], over[keys[0]])] + Extras(keys[1..], over)
  }

  function NewKeys(base: seq<string>, over: map<string, string>): (keys: seq<string>)
    ensures forall k | k in keys :: k in over
  {
    Order.SortedIs(over.Keys - KeysOf(base));
    Order.Sorted(over.Keys - KeysOf(base))
  }

  function Merge(base: seq<string>, over: map<string, string>): seq<string> {
    if over == map[] then base else Overlay(base, over, {}) + Extras(NewKeys(base, over), over)
  }

  // ---- the loops ------------------------------------------------------------

  lemma {:induction false} OverlaySnoc(base: seq<string>, kv: string, over: map<string, string>, seen: set<string>)
    ensures Overlay(base + [kv], over, seen) == Overlay(base, over, seen) + Overlay([kv], over, seen + KeysOf(base))
    decreases |base|
  {
    if base == [] {
      assert base + [kv] == [kv] && seen + KeysOf(base) == seen;
    } else {
      var longer := base + [kv];
      assert longer[0] == base[0] && longer[1..] == base[1..] + [kv];
      if Keyed(base[0]) && Key(base[0]) !in seen {
        OverlaySnoc(base[1..], kv, over, seen + {Key(base[0])});
        assert seen + {Key(base[0])} + KeysOf(base[1..]) == seen + KeysOf(base);
      } else {
        OverlaySnoc(base[1..], kv, over, seen);
        assert seen + KeysOf(base[1..]) == seen + KeysOf(base);
      }
    }
  }

  lemma {:induction false} KeysOfSnoc(base: seq<string>, kv: string)
    ensures KeysOf(base + [kv]) == KeysOf(base) + if Keyed(kv) then {Key(kv)} else {}
    decreases |base|
  {
    if base == [] {
      assert base + [kv] == [kv] && [kv][1..] == [];
    } else {
      var longer := base + [kv];
      assert longer[0] == base[0] && longer[1..] == base[1..] + [kv];
      KeysOfSnoc(base[1..], kv);
    }
  }

  lemma {:induction false} ExtrasSnoc(keys: seq<string>, k: string, over: map<string, string>)
    requires k in over && forall x | x in keys :: x in over
    ensures Extras(keys + [k], over) == Extras(keys, over) + [Entry(k, over[k])]
    decreases |keys|
  {
    if keys == [] {
      assert keys + [k] == [k] && [k][1..] == [];
    } else {
      var longer := keys + [k];
      assert longer[0] == keys[0] && longer[1..] == keys[1..] + [k];
      ExtrasSnoc(keys[1..], k, over);
    }
  }

  /** The first loop of mergeEnv. */
  method OverlayBase(base: seq<string>, over: map<string, string>) returns (out: seq<string>, seenKey: set<string>)
    ensures out == Overlay(base, over, {}) && seenKey == KeysOf(base)
  {
    out, seenKey := [], {};
    for i := 0 to |base|
      invariant out == Overlay(base[..i], over, {}) && seenKey == KeysOf(base[..i])
    {
      var kv := base[i];
      assert base[..i + 1] == base[..i] + [kv];
      OverlaySnoc(base[..i], kv, over, {});
      KeysOfSnoc(base[..i], kv);
      assert {} + seenKey == seenKey && [kv][1..] == [];
      if !Keyed(kv) {
        out := out + [kv];
        continue;
      }
      var key := Key(kv);
      if key in seenKey {
        continue;
      }
      seenKey := seenKey + {key};
      out := out + [if key in over then Entry(key, over[key]) else kv];
    }
    assert base[..|base|] == base;
  }

  /** The second loop: the override keys that the base did not have. */
  method MissingKeys(over: map<string, string>, seenKey: set<string>) returns (extra: set<string>)
    ensures extra == over.Keys - seenKey
  {
    var keys := over.Keys;
    extra := {};
    while keys != {}
      invariant forall k :: k in extra <==> k in over && k !in keys && k !in seenKey
      decreases keys
    {
      var k :| k in keys;
      keys := keys - {k};
      if k in over && k !in seenKey {
        extra := extra + {k};
      }
    }
  }

  /** The third loop: the new entries behind the kept ones. */
  method AppendExtras(kept: seq<string>, sorted: seq<string>, over: map<string, string>) returns (out: seq<string>)
    requires forall k | k in sorted :: k in over
    ensures out == kept + Extras(sorted, over)
  {
    out := kept;
    for i := 0 to |sorted|
      invariant out == kept + Extras(sorted[..i], over)
    {
      assert sorted[..i + 1] == sorted[..i] + [sorted[i]];
      ExtrasSnoc(sorted[..i], sorted[i], over);
      out := out + [Entry(sorted[i], over[sorted[i]])];
    }
    assert sorted[..|sorted|] == sorted;
  }

  /** mergeEnv. */
  method MergeEnvironment(base: seq<string>, over: map<string, string>) returns (out: seq<string>)
    ensures out == Merge(base, over)
  {
    if over == map[] {
      return base;
    }
    var kept, seenKey := OverlayBase(base, over);
    var extra := MissingKeys(over, seenKey);
    Order.SortedIs(extra);
    out := AppendExtras(kept, Order.Sorted(extra), over);
  }

  // ---- what looking up in the result gives ----------------------------------

  lemma EntryIs(key: string, value: string)
    requires '=' !in key
    ensures Keyed(Entry(key, value)) && Key(Entry(key, value)) == key && Value(Entry(key, value)) == value
  {
    var kv := Entry(key, value);
    var i := IndexEq(kv);
    assert kv[|key|] == '=' && forall k | 0 <= k < |key| :: kv[k] == key[k];
    assert forall k | 0 <= k < i :: kv[k] != '=' by {
      assert forall k | 0 <= k < i :: kv[..i][k] == kv[k];
    }
    assert i == |key|;
  }

  lemma {:induction false} LookupAppend(a: seq<string>, b: seq<string>, key: string)
    ensures Lookup(a + b, key) == if Lookup(a, key).Some? then Lookup(a, key) else Lookup(b, key)
    decreases |a|
  {
    if a == [] {
      assert a + b == b;
    } else {
      assert (a + b)[0] == a[0] && (a + b)[1..] == a[1..] + b;
      LookupAppend(a[1..], b, key);
    }
  }

  lemma {:induction false} OverlayLookup(base: seq<string>, over: map<string, string>, seen: set<string>, key: string)
    requires forall k | k in over :: '=' !in k
    ensures Lookup(Overlay(base, over, seen), key)
            == if key in seen || Lookup(base, key).None? then None
               else if key in over then Some(over[key]) else Lookup(base, key)
    decreases |base|
  {
    if base != [] {
      var kv := base[0];
      var out := Overlay(base, over, seen);
      if !Keyed(kv) {
        OverlayLookup(base[1..], over, seen, key);
        assert out[1..] == Overlay(base[1..], over, seen);
      } else if Key(kv) in seen {
        OverlayLookup(base[1..], over, seen, key);
      } else {
        OverlayLookup(base[1..], over, seen + {Key(kv)}, key);
        assert out[0] == Overlaid(kv, over) && out[1..] == Overlay(base[1..], over, seen + {Key(kv)});
        if Key(kv) in over {
          EntryIs(Key(kv), over[Key(kv)]);
        }
      }
    }
  }

  lemma {:induction false} ExtrasLookup(keys: seq<string>, over: map<string, string>, key: string)
    requires forall k | k in keys :: k in over && '=' !in k
    ensures Lookup(Extras(keys, over), key) == if key in keys then Some(over[key]) else None
    decreases |keys|
  {
    if keys != [] {
      EntryIs(keys[0], over[keys[0]]);
      ExtrasLookup(keys[1..], over, key);
      assert Extras(keys, over)[1..] == Extras(keys[1..], over);
    }
  }

  lemma {:induction false} LookupInKeys(env: seq<string>, key: string)
    ensures Lookup(env, key).Some? <==> key in KeysOf(env)
    decreases |env|
  {
    if env != [] {
      LookupInKeys(env[1..], key);
    }
  }

  /** Looking up in the merged environment gives the override, else what the base gave. */
  ghost predicate Overrides(out: seq<string>, base: seq<string>, over: map<string, string>) {
    forall key :: Lookup(out, key) == if key in over then Some(over[key]) else Lookup(base, key)
  }

  lemma MergeLookup(base: seq<string>, over: map<string, string>, key: string)
    requires forall k | k in over :: '=' !in k
    ensures Lookup(Merge(base, over), key) == if key in over then Some(over[key]) else Lookup(base, key)
  {
    if over != map[] {
      var keys := NewKeys(base, over);
      Order.SortedIs(over.Keys - KeysOf(base));
      LookupAppend(Overlay(base, over, {}), Extras(keys, over), key);
      OverlayLookup(base, over, {}, key);
      ExtrasLookup(keys, over, key);
      LookupInKeys(base, key);
    }
  }

  /** The overlay law holds if and only if no override key contains an equals sign. */
  lemma MergeOverridesExactly(base: seq<string>, over: map<string, string>)
    ensures Overrides(Merge(base, over), base, over) <==> forall k | k in over :: '=' !in k
  {
    if forall k | k in over :: '=' !in k {
      forall key ensures Lookup(Merge(base, over), key) == if key in over then Some(over[key]) else Lookup(base, key) {
        MergeLookup(base, over, key);
      }
    } else {
      var k :| k in over && '=' in k;
      LookupInKeys(Merge(base, over), k);
      KeysHaveNoEq(Merge(base, over));
      assert Lookup(Merge(base, over), k) == None;
    }
  }

  lemma {:induction false} KeysHaveNoEq(env: seq<string>)
    ensures forall k | k in KeysOf(env) :: '=' !in k
    decreases |env|
  {
    if env != [] {
      KeysHaveNoEq(env[1..]);
    }
  }

  // ---- order, duplicates and malformed entries ------------------------------

  predicate HasKey(env: seq<string>, key: string) { exists i :: 0 <= i < |env| && Keyed(env[i]) && Key(env[i]) == key }

  lemma {:induction false} KeysOfIs(env: seq<string>, key: string)
    ensures key in KeysOf(env) <==> HasKey(env, key)
    decreases |env|
  {
    if env != [] {
      KeysOfIs(env[1..], key);
      if HasKey(env[1..], key) {
        var i :| 0 <= i < |env[1..]| && Keyed(env[1..][i]) && Key(env[1..][i]) == key;
        assert env[i + 1] == env[1..][i];
      }
      if i :| 0 < i < |env| && Keyed(env[i]) && Key(env[i]) == key {
        assert env[1..][i - 1] == env[i];
      }
    }
  }

  /** The entry is malformed, or the first one for its key. */
  predicate FirstAt(base: seq<string>, i: nat)
    requires i < |base|
  {
    Keyed(base[i]) ==> forall j | 0 <= j < i && Keyed(base[j]) :: Key(base[j]) != Key(base[i])
  }

  /** The positions below n that hold such an entry, in order. */
  function Firsts(base: seq<string>, n: nat): seq<nat>
    requires n <= |base|
  {
    if n == 0 then [] else Firsts(base, n - 1) + if FirstAt(base, n - 1) then [n - 1] else []
  }

  /** Firsts lists exactly the positions of malformed entries and of first occurrences, ascending. */
  lemma {:induction false} FirstsAre(base: seq<string>, n: nat)
    requires n <= |base|
    ensures forall i :: i in Firsts(base, n) <==> 0 <= i < n && FirstAt(base, i)
    ensures forall a, b | 0 <= a < b < |Firsts(base, n)| :: Firsts(base, n)[a] < Firsts(base, n)[b]
  {
    if n > 0 {
      FirstsAre(base, n - 1);
      var front := Firsts(base, n - 1);
      assert forall a | 0 <= a < |front| :: front[a] in front;
    }
  }

  /** What becomes of a base entry that is kept. */
  function Kept(kv: string, over: map<string, string>): string { if Keyed(kv) then Overlaid(kv, over) else kv }

  lemma FirstAtPrefix(base: seq<string>, n: nat)
    requires n < |base| && Keyed(base[n])
    ensures FirstAt(base, n) <==> Key(base[n]) !in KeysOf(base[..n])
  {
    KeysOfIs(base[..n], Key(base[n]));
    assert forall j | 0 <= j < n :: base[..n][j] == base[j];
  }

  /** The overlay keeps the entries at those positions, each overridden where asked. */
  lemma {:induction false} OverlayKeeps(base: seq<string>, over: map<string, string>, n: nat)
    requires n <= |base|
    ensures var out, at := Overlay(base[..n], over, {}), Firsts(base, n);
            |out| == |at| && forall k | 0 <= k < |at| :: 0 <= at[k] < n && out[k] == Kept(base[at[k]], over)
  {
    if n > 0 {
      OverlayKeeps(base, over, n - 1);
      var front, last := base[..n - 1], base[n - 1];
      assert base[..n] == front + [last];
      OverlaySnoc(front, last, over, {});
      assert {} + KeysOf(front) == KeysOf(front) && [last][1..] == [];
      if Keyed(last) {
        FirstAtPrefix(base, n - 1);
      }
    }
  }

  lemma {:induction false} ExtrasAre(keys: seq<string>, over: map<string, string>)
    requires forall k | k in keys :: k in over
    ensures |Extras(keys, over)| == |keys|
    ensures forall k | 0 <= k < |keys| :: keys[k] in over && Extras(keys, over)[k] == Entry(keys[k], over[keys[k]])
    decreases |keys|
  {
    if keys != [] {
      ExtrasAre(keys[1..], over);
      forall k | 0 < k < |keys| ensures keys[k] in over && Extras(keys, over)[k] == Entry(keys[k], over[keys[k]]) {
        assert keys[1..][k - 1] == keys[k];
      }
    }
  }

  /** For any base and any overrides: the result is first the base's malformed entries and first occurrences in base
      order, each rewritten in place where it is overridden, and then an entry for every override key that the base
      lacks, in ascending order. */
  lemma MergeOrder(base: seq<string>, over: map<string, string>)
    requires over != map[]
    ensures var out, at, keys := Merge(base, over), Firsts(base, |base|), NewKeys(base, over);
            && |out| == |at| + |keys|
            && (forall k | 0 <= k < |at| :: 0 <= at[k] < |base| && out[k] == Kept(base[at[k]], over))
            && (forall k | 0 <= k < |keys| :: keys[k] in over && out[|at| + k] == Entry(keys[k], over[keys[k]]))
            && (forall x :: x in keys <==> x in over && !HasKey(base, x))
            && (forall i, j | 0 <= i < j < |keys| :: Order.StrLe(keys[i], keys[j]) && keys[i] != keys[j])
  {
    var keys := NewKeys(base, over);
    Order.SortedIs(over.Keys - KeysOf(base));
    assert base[..|base|] == base;
    OverlayKeeps(base, over, |base|);
    ExtrasAre(keys, over);
    forall x ensures x in keys <==> x in over && !HasKey(base, x) {
      KeysOfIs(base, x);
    }
  }

  function Bares(env: seq<string>): seq<string> {
    if env == [] then [] else (if Keyed(env[0]) then [] else [env[0]]) + Bares(env[1..])
  }

  lemma {:induction false} BaresAppend(a: seq<string>, b: seq<string>)
    ensures Bares(a + b) == Bares(a) + Bares(b)
    decreases |a|
  {
    if a == [] {
      assert a + b == b;
    } else {
      assert (a + b)[0] == a[0] && (a + b)[1..] == a[1..] + b;
      BaresAppend(a[1..], b);
    }
  }

  lemma {:induction false} OverlayBares(base: seq<string>, over: map<string, string>, seen: set<string>)
    ensures Bares(Overlay(base, over, seen)) == Bares(base)
    decreases |base|
  {
    if base != [] {
      var kv, out := base[0], Overlay(base, over, seen);
      OverlayBares(base[1..], over, seen);
      if !Keyed(kv) {
        assert out[1..] == Overlay(base[1..], over, seen);
      } else if Key(kv) !in seen {
        OverlayBares(base[1..], over, seen + {Key(kv)});
        assert out[0] == Overlaid(kv, over) && out[1..] == Overlay(base[1..], over, seen + {Key(kv)});
        EntryKeyed(Key(kv), if Key(kv) in over then over[Key(kv)] else "");
      }
    }
  }

  lemma EntryKeyed(key: string, value: string)
    ensures Keyed(Entry(key, value))
  {
    assert Entry(key, value)[|key|] == '=';
  }

  lemma {:induction false} ExtrasBares(keys: seq<string>, over: map<string, string>)
    requires forall k | k in keys :: k in over
    ensures Bares(Extras(keys, over)) == []
    decreases |keys|
  {
    if keys != [] {
      EntryKeyed(keys[0], over[keys[0]]);
      ExtrasBares(keys[1..], over);
      assert Extras(keys, over)[1..] == Extras(keys[1..], over);
    }
  }

  /** Malformed entries survive, all of them and in order, whatever is overridden. */
  lemma MalformedSurvive(base: seq<string>, over: map<string, string>)
    ensures Bares(Merge(base, over)) == Bares(base)
  {
    if over != map[] {
      var keys := NewKeys(base, over);
      BaresAppend(Overlay(base, over, {}), Extras(keys, over));
      OverlayBares(base, over, {});
      ExtrasBares(keys, over);
      assert Bares(base) + [] == Bares(base);
    }
  }

  /** The key of the k-th entry of the result: that of the base entry it came from, or the k-th new key. */
  lemma KeptKey(kv: string, over: map<string, string>)
    ensures Keyed(Kept(kv, over)) <==> Keyed(kv)
    ensures Keyed(kv) ==> Key(Kept(kv, over)) == Key(kv)
  {
    if Keyed(kv) && Key(kv) in over {
      EntryIs(Key(kv), over[Key(kv)]);
    }
  }

  lemma KeyAt(base: seq<string>, over: map<string, string>, k: nat)
    requires over != map[] && (forall x | x in over :: '=' !in x) && k < |Merge(base, over)|
    requires Keyed(Merge(base, over)[k])
    ensures var at, keys := Firsts(base, |base|), NewKeys(base, over);
            && |Merge(base, over)| == |at| + |keys|
            && if k < |at| then 0 <= at[k] < |base| && Keyed(base[at[k]])
                                && Key(Merge(base, over)[k]) == Key(base[at[k]])
               else Key(Merge(base, over)[k]) == keys[k - |at|]
  {
    var at, keys := Firsts(base, |base|), NewKeys(base, over);
    MergeOrder(base, over);
    if k < |at| {
      KeptKey(base[at[k]], over);
    } else {
      var x := keys[k - |at|];
      assert Merge(base, over)[|at| + (k - |at|)] == Entry(x, over[x]);
      EntryIs(x, over[x]);
    }
  }

  /** With something to override and override keys that are names, no key appears twice in the result. */
  lemma NoKeyTwice(base: seq<string>, over: map<string, string>, i: nat, j: nat)
    requires over != map[] && forall x | x in over :: '=' !in x
    requires i < j < |Merge(base, over)| && Keyed(Merge(base, over)[i]) && Keyed(Merge(base, over)[j])
    ensures Key(Merge(base, over)[i]) != Key(Merge(base, over)[j])
  {
    var at, keys := Firsts(base, |base|), NewKeys(base, over);
    MergeOrder(base, over);
    FirstsAre(base, |base|);
    KeyAt(base, over, i);
    KeyAt(base, over, j);
    if j < |at| {
      assert at[j] in at && FirstAt(base, at[j]);
    } else if i < |at| {
      assert keys[j - |at|] in keys;
      assert HasKey(base, Key(base[at[i]]));
    }
  }
}
