/** The drift check: a sort-and-compare test that decides whether a host still looks as it did when its
    plan was approved. */
module Drift {
  import opened Common
  import opened Snapshots
  import Gate

  /** The part of a pending update the check compares. */
  datatype PackageVersion = PackageVersion(name: string, candidateVersion: string)

  function Versions(updates: seq<PackageUpdate>): seq<PackageVersion> {
    seq(|updates|, i requires 0 <= i < |updates| => PackageVersion(updates[i].name, updates[i].candidateVersion))
  }

  // ---------------------------------------------------------------- the orders

  /** Lexicographic order on strings, by code point. */
  predicate TextBefore(a: string, b: string) {
    a == [] || (b != [] && (a[0] < b[0] || (a[0] == b[0] && TextBefore(a[1..], b[1..]))))
  }

  lemma {:induction false} TextTotal(a: string, b: string)
    ensures TextBefore(a, b) || TextBefore(b, a)
    ensures TextBefore(a, b) && TextBefore(b, a) ==> a == b
  {
    if a != [] && b != [] && a[0] == b[0] {
      TextTotal(a[1..], b[1..]);
      assert a == [a[0]] + a[1..] && b == [b[0]] + b[1..];
    }
  }

  lemma {:induction false} TextTransitive(a: string, b: string, c: string)
    requires TextBefore(a, b) && TextBefore(b, c)
    ensures TextBefore(a, c)
  {
    if a != [] && b != [] && c != [] && a[0] == b[0] && b[0] == c[0] {
      TextTransitive(a[1..], b[1..], c[1..]);
    }
  }

  /** A sortable key: a list of texts compared one after the other, as tuples are. Failed units are keys
      of one text, package updates keys of two. */
  type Key = seq<string>

  predicate Before(a: Key, b: Key) {
    a == [] || (b != [] && (if a[0] == b[0] then Before(a[1..], b[1..]) else TextBefore(a[0], b[0])))
  }

  lemma {:induction false} BeforeTotal(a: Key, b: Key)
    ensures Before(a, b) || Before(b, a)
    ensures Before(a, b) && Before(b, a) ==> a == b
  {
    if a != [] && b != [] {
      if a[0] == b[0] {
        BeforeTotal(a[1..], b[1..]);
        assert a == [a[0]] + a[1..] && b == [b[0]] + b[1..];
      } else {
        TextTotal(a[0], b[0]);
      }
    }
  }

  lemma {:induction false} BeforeTransitive(a: Key, b: Key, c: Key)
    requires Before(a, b) && Before(b, c)
    ensures Before(a, c)
  {
    if a != [] && b != [] && c != [] {
      if a[0] == b[0] && b[0] == c[0] {
        BeforeTransitive(a[1..], b[1..], c[1..]);
      } else if a[0] != b[0] && b[0] != c[0] {
        TextTransitive(a[0], b[0], c[0]);
        TextTotal(a[0], b[0]);
      }
    }
  }

  // ---------------------------------------------------------------- sorting

  predicate Ordered(keys: seq<Key>) {
    forall i, j :: 0 <= i < j < |keys| ==> Before(keys[i], keys[j])
  }

  /** The key put behind every key not after it. */
  function Insert(key: Key, keys: seq<Key>): seq<Key> {
    if keys == [] then [key]
    else if Before(keys[|keys| - 1], key) then keys + [key]
    else Insert(key, keys[..|keys| - 1]) + [keys[|keys| - 1]]
  }

  function Sorted(keys: seq<Key>): seq<Key> {
    if keys == [] then [] else Insert(keys[|keys| - 1], Sorted(keys[..|keys| - 1]))
  }

  lemma {:induction false} InsertKeeps(key: Key, keys: seq<Key>)
    ensures multiset(Insert(key, keys)) == multiset(keys) + multiset{key}
    ensures forall other :: other in Insert(key, keys) <==> other in keys || other == key
  {
    if keys != [] && !Before(keys[|keys| - 1], key) {
      InsertKeeps(key, keys[..|keys| - 1]);
      assert keys == keys[..|keys| - 1] + [keys[|keys| - 1]];
    }
  }

  lemma {:induction false} InsertOrdered(key: Key, keys: seq<Key>)
    requires Ordered(keys)
    ensures Ordered(Insert(key, keys))
  {
    if keys != [] {
      var front, last := keys[..|keys| - 1], keys[|keys| - 1];
      if Before(last, key) {
        forall i | 0 <= i < |keys| ensures Before(keys[i], key) {
          if i < |keys| - 1 {
            BeforeTransitive(keys[i], last, key);
          }
        }
      } else {
        BeforeTotal(last, key);
        InsertOrdered(key, front);
        InsertKeeps(key, front);
        var longer := Insert(key, front);
        forall i | 0 <= i < |longer| ensures Before(longer[i], last) {
          assert longer[i] in longer;
          assert longer[i] in front || longer[i] == key;
        }
      }
    }
  }

  /** Sorting permutes and orders. */
  lemma {:induction false} SortedMeans(keys: seq<Key>)
    ensures multiset(Sorted(keys)) == multiset(keys) && Ordered(Sorted(keys))
  {
    if keys != [] {
      var front, last := keys[..|keys| - 1], keys[|keys| - 1];
      SortedMeans(front);
      InsertKeeps(last, Sorted(front));
      InsertOrdered(last, Sorted(front));
      assert keys == front + [last];
    }
  }

  lemma LastIsGreatest(keys: seq<Key>, key: Key)
    requires Ordered(keys) && key in keys
    ensures Before(key, keys[|keys| - 1])
  {
    var i :| 0 <= i < |keys| && keys[i] == key;
    if i == |keys| - 1 {
      BeforeTotal(key, key);
    }
  }

  lemma OrderedFront(keys: seq<Key>)
    requires Ordered(keys) && keys != []
    ensures Ordered(keys[..|keys| - 1])
    ensures multiset(keys[..|keys| - 1]) == multiset(keys) - multiset{keys[|keys| - 1]}
  {
    hide Before;
    assert keys == keys[..|keys| - 1] + [keys[|keys| - 1]];
  }

  lemma LastsAgree(a: seq<Key>, b: seq<Key>)
    requires Ordered(a) && Ordered(b) && multiset(a) == multiset(b) && a != [] && b != []
    ensures a[|a| - 1] == b[|b| - 1]
  {
    hide Before;
    var x, y := a[|a| - 1], b[|b| - 1];
    assert x in multiset(a) && y in multiset(b);
    LastIsGreatest(a, y);
    LastIsGreatest(b, x);
    BeforeTotal(x, y);
  }

  lemma SameLength<T>(a: seq<T>, b: seq<T>)
    requires multiset(a) == multiset(b)
    ensures |a| == |b|
  {
    assert |multiset(a)| == |a| && |multiset(b)| == |b|;
  }

  /** Two ordered lists of the same keys are the same list. */
  lemma {:induction false} OrderedUnique(a: seq<Key>, b: seq<Key>)
    requires Ordered(a) && Ordered(b) && multiset(a) == multiset(b)
    ensures a == b
    decreases |a|
  {
    hide *;
    SameLength(a, b);
    if |a| > 0 {
      LastsAgree(a, b);
      OrderedFront(a);
      OrderedFront(b);
      var n := |a| - 1;
      OrderedUnique(a[..n], b[..n]);
      assert a == a[..n] + [a[n]] && b == b[..n] + [b[n]];
    }
  }

  /** Sorting is canonical: sorted lists agree exactly if the multisets of their keys do. */
  lemma SortedCanonical(a: seq<Key>, b: seq<Key>)
    ensures Sorted(a) == Sorted(b) <==> multiset(a) == multiset(b)
  {
    SortedMeans(a);
    SortedMeans(b);
    if multiset(a) == multiset(b) {
      OrderedUnique(Sorted(a), Sorted(b));
    }
  }

  // ---------------------------------------------------------------- the check

  function PackageKey(item: PackageVersion): Key {
    [item.name, item.candidateVersion]
  }

  function PackageKeys(updates: seq<PackageVersion>): seq<Key> {
    if updates == [] then [] else PackageKeys(updates[..|updates| - 1]) + [PackageKey(updates[|updates| - 1])]
  }

  function UnitKey(unit: string): Key {
    [unit]
  }

  function UnitKeys(units: seq<string>): seq<Key> {
    if units == [] then [] else UnitKeys(units[..|units| - 1]) + [UnitKey(units[|units| - 1])]
  }

  function DriftDecision(approved: Option<HostSnapshot>, current: Option<HostSnapshot>): Gate.GateDecision {
    if approved.None? || current.None? then Gate.Refuse(Gate.EvidenceIncomplete)
    else
      var changed :=
        || Sorted(PackageKeys(Versions(approved.value.updates))) != Sorted(PackageKeys(Versions(current.value.updates)))
        || Sorted(UnitKeys(approved.value.failedUnits)) != Sorted(UnitKeys(current.value.failedUnits))
        || approved.value.rebootRequiredNow != current.value.rebootRequiredNow;
      if changed then Gate.RefuseUnsafe(Gate.HostStateDrift) else Gate.Allow
  }

  /** The multiset of keys is the multiset of updates, key by key. */
  lemma {:induction false} PackageKeysCount(updates: seq<PackageVersion>, item: PackageVersion)
    ensures multiset(PackageKeys(updates))[PackageKey(item)] == multiset(updates)[item]
  {
    if updates != [] {
      var front, last := updates[..|updates| - 1], updates[|updates| - 1];
      PackageKeysCount(front, item);
      assert updates == front + [last];
      assert PackageKey(item) == PackageKey(last) <==> item == last by {
        assert PackageKey(item)[0] == item.name && PackageKey(item)[1] == item.candidateVersion;
        assert PackageKey(last)[0] == last.name && PackageKey(last)[1] == last.candidateVersion;
      }
    }
  }

  lemma {:induction false} PackageKeysOnly(updates: seq<PackageVersion>, key: Key)
    requires key in PackageKeys(updates)
    ensures |key| == 2 && key == PackageKey(PackageVersion(key[0], key[1]))
  {
    var front, last := updates[..|updates| - 1], updates[|updates| - 1];
    if key in PackageKeys(front) {
      PackageKeysOnly(front, key);
    }
  }

  lemma PackagesAgree(a: seq<PackageVersion>, b: seq<PackageVersion>)
    ensures multiset(PackageKeys(a)) == multiset(PackageKeys(b)) <==> multiset(a) == multiset(b)
  {
    hide PackageKey;
    if multiset(PackageKeys(a)) == multiset(PackageKeys(b)) {
      forall item ensures multiset(a)[item] == multiset(b)[item] {
        PackageKeysCount(a, item);
        PackageKeysCount(b, item);
      }
    }
    if multiset(a) == multiset(b) {
      forall key ensures multiset(PackageKeys(a))[key] == multiset(PackageKeys(b))[key] {
        if key in PackageKeys(a) || key in PackageKeys(b) {
          if key in PackageKeys(a) {
            PackageKeysOnly(a, key);
          } else {
            PackageKeysOnly(b, key);
          }
          PackageKeysCount(a, PackageVersion(key[0], key[1]));
          PackageKeysCount(b, PackageVersion(key[0], key[1]));
        } else {
          assert key !in multiset(PackageKeys(a)) && key !in multiset(PackageKeys(b));
        }
      }
    }
  }

  lemma {:induction false} UnitKeysOnly(units: seq<string>)
    ensures forall key :: key in UnitKeys(units) ==> |key| == 1
  {
    if units != [] {
      UnitKeysOnly(units[..|units| - 1]);
    }
  }

  lemma UnitKeyInjective(a: string, b: string)
    ensures UnitKey(a) == UnitKey(b) <==> a == b
  {
    assert UnitKey(a)[0] == a && UnitKey(b)[0] == b;
  }

  lemma {:induction false} UnitKeysCount(units: seq<string>, unit: string)
    ensures multiset(UnitKeys(units))[UnitKey(unit)] == multiset(units)[unit]
  {
    hide UnitKey;
    if units != [] {
      var front, last := units[..|units| - 1], units[|units| - 1];
      UnitKeysCount(front, unit);
      assert units == front + [last];
      UnitKeyInjective(unit, last);
    }
  }

  lemma UnitsAgree(a: seq<string>, b: seq<string>)
    ensures multiset(UnitKeys(a)) == multiset(UnitKeys(b)) <==> multiset(a) == multiset(b)
  {
    if multiset(UnitKeys(a)) == multiset(UnitKeys(b)) {
      forall unit ensures multiset(a)[unit] == multiset(b)[unit] {
        UnitKeysCount(a, unit);
        UnitKeysCount(b, unit);
      }
    }
    if multiset(a) == multiset(b) {
      forall key ensures multiset(UnitKeys(a))[key] == multiset(UnitKeys(b))[key] {
        UnitKeysOnly(a);
        UnitKeysOnly(b);
        if key in UnitKeys(a) || key in UnitKeys(b) {
          assert key == UnitKey(key[0]);
          UnitKeysCount(a, key[0]);
          UnitKeysCount(b, key[0]);
        } else {
          assert key !in multiset(UnitKeys(a)) && key !in multiset(UnitKeys(b));
        }
      }
    }
  }

  /** What the check compares, free of order. */
  ghost predicate SameHostState(a: HostSnapshot, b: HostSnapshot) {
    multiset(Versions(a.updates)) == multiset(Versions(b.updates)) && multiset(a.failedUnits) == multiset(b.failedUnits)
    && a.rebootRequiredNow == b.rebootRequiredNow
  }

  /** The check lets a plan proceed exactly if both snapshots are there and show the same updates, the
      same failed units, each as often, and the same reboot flag. */
  lemma DriftExactly(approved: Option<HostSnapshot>, current: Option<HostSnapshot>)
    ensures DriftDecision(approved, current).Allow? <==>
      approved.Some? && current.Some? && SameHostState(approved.value, current.value)
  {
    if approved.Some? && current.Some? {
      SortedCanonical(PackageKeys(Versions(approved.value.updates)), PackageKeys(Versions(current.value.updates)));
      SortedCanonical(UnitKeys(approved.value.failedUnits), UnitKeys(current.value.failedUnits));
      PackagesAgree(Versions(approved.value.updates), Versions(current.value.updates));
      UnitsAgree(approved.value.failedUnits, current.value.failedUnits);
    }
  }

  function Without(updates: seq<PackageUpdate>, i: nat): seq<PackageUpdate>
    requires i < |updates|
  {
    updates[..i] + updates[i + 1..]
  }

  lemma WithoutCounts(updates: seq<PackageUpdate>, i: nat)
    requires i < |updates|
    ensures multiset(Without(updates, i)) == multiset(updates) - multiset{updates[i]}
  {
    assert updates == updates[..i] + [updates[i]] + updates[i + 1..];
  }

  lemma {:induction false} VersionsCount(
    updates: seq<PackageUpdate>, version: PackageVersion, among: seq<PackageUpdate>)
    requires multiset(updates) == multiset(among)
    ensures multiset(Versions(updates))[version] == multiset(Versions(among))[version]
    decreases |updates|
  {
    SameLength(updates, among);
    if updates != [] {
      var n := |updates| - 1;
      var last := updates[n];
      assert last in multiset(among);
      var i :| 0 <= i < |among| && among[i] == last;
      hide Without;
      WithoutCounts(updates, n);
      WithoutCounts(among, i);
      VersionsSplit(updates, n, version);
      VersionsSplit(among, i, version);
      SmallerWithout(updates, n);
      VersionsCount(Without(updates, n), version, Without(among, i));
    } else {
      assert among == [];
    }
  }

  lemma SmallerWithout(updates: seq<PackageUpdate>, i: nat)
    requires i < |updates|
    ensures |Without(updates, i)| == |updates| - 1
  {
  }

  lemma VersionsSplit(updates: seq<PackageUpdate>, i: nat, version: PackageVersion)
    requires i < |updates|
    ensures multiset(Versions(updates))[version]
         == multiset(Versions(Without(updates, i)))[version]
            + (if version == Versions(updates)[i] then 1 else 0)
  {
    var all, rest := Versions(updates), Versions(Without(updates, i));
    assert all == all[..i] + [all[i]] + all[i + 1..];
    assert rest == all[..i] + all[i + 1..];
  }

  lemma ReorderedUpdatesAgree(a: seq<PackageUpdate>, b: seq<PackageUpdate>)
    requires multiset(a) == multiset(b)
    ensures multiset(Versions(a)) == multiset(Versions(b))
  {
    forall version ensures multiset(Versions(a))[version] == multiset(Versions(b))[version] {
      VersionsCount(a, version, b);
    }
  }

  /** So on snapshots it is an equivalence, and listing the same updates and units in another order is no
      drift. */
  lemma DriftIsEquivalence(a: HostSnapshot, b: HostSnapshot, c: HostSnapshot)
    ensures DriftDecision(Some(a), Some(a)).Allow?
    ensures DriftDecision(Some(a), Some(b)).Allow? <==> DriftDecision(Some(b), Some(a)).Allow?
    ensures DriftDecision(Some(a), Some(b)).Allow? && DriftDecision(Some(b), Some(c)).Allow? ==>
      DriftDecision(Some(a), Some(c)).Allow?
    ensures multiset(a.updates) == multiset(b.updates) ==>
      DriftDecision(Some(a), Some(b.(failedUnits := a.failedUnits, rebootRequiredNow := a.rebootRequiredNow))).Allow?
  {
    hide DriftDecision, Versions;
    if multiset(a.updates) == multiset(b.updates) {
      ReorderedUpdatesAgree(a.updates, b.updates);
    }
    DriftExactly(Some(a), Some(a));
    DriftExactly(Some(a), Some(b));
    DriftExactly(Some(b), Some(a));
    DriftExactly(Some(b), Some(c));
    DriftExactly(Some(a), Some(c));
    DriftExactly(Some(a), Some(b.(failedUnits := a.failedUnits, rebootRequiredNow := a.rebootRequiredNow)));
  }
}
