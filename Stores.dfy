/**
  The completion and expansion stores: JavaScript objects from string keys
  to booleans, read with "absent means false" and updated by the functional
  updater `prev => ({...prev, [key]: !prev[key]})`.
 */
module Stores {

  /** `m[key] || false`: an absent key reads as false, a present one as its stored value. */
  function Lookup(m: map<string, bool>, key: string): bool
  {
    key in m && m[key]
  }

  /** The updater `prev => ({...prev, [key]: !prev[key]})`: a new map, with `!undefined` read as `true`. */
  function Flip(m: map<string, bool>, key: string): (r: map<string, bool>)
    ensures r.Keys == m.Keys + {key}
    ensures Lookup(r, key) == !Lookup(m, key)
    ensures forall other :: other != key ==> (other in r <==> other in m) && Lookup(r, other) == Lookup(m, other)
  {
    m[key := !Lookup(m, key)]
  }

  /** Flipping the same key twice restores every lookup, and restores the map itself once the key is present. */
  lemma FlipTwice(m: map<string, bool>, key: string)
    ensures forall k :: Lookup(Flip(Flip(m, key), key), k) == Lookup(m, k)
    ensures key in m ==> Flip(Flip(m, key), key) == m
  {
  }

  /** The store after applying the updater for each key of `keys`, in order, starting from `m`. */
  function Replay(m: map<string, bool>, keys: seq<string>): map<string, bool>
    decreases |keys|
  {
    if keys == [] then m else Flip(Replay(m, keys[..|keys| - 1]), keys[|keys| - 1])
  }

  /** How many times `key` occurs in `keys`. */
  function Occurrences(keys: seq<string>, key: string): nat
    decreases |keys|
  {
    if keys == [] then 0
    else Occurrences(keys[..|keys| - 1], key) + (if keys[|keys| - 1] == key then 1 else 0)
  }

  /**
    Starting from the empty store, a key reads as true exactly when it was flipped an odd number
    of times; the store holds exactly the keys that were ever flipped.
   */
  lemma {:induction false} ReplayParity(keys: seq<string>, key: string)
    ensures Lookup(Replay(map[], keys), key) <==> Occurrences(keys, key) % 2 == 1
    ensures key in Replay(map[], keys) <==> key in keys
    decreases |keys|
  {
    if keys != [] {
      var prefix := keys[..|keys| - 1];
      assert keys == prefix + [keys[|keys| - 1]];
      ReplayParity(prefix, key);
    }
  }

  /** The keys that occur an odd number of times in `keys`. */
  function OddOccurring(keys: seq<string>): set<string>
  {
    set k | k in keys && Occurrences(keys, k) % 2 == 1
  }

  /** From the empty store, the keys reading true are exactly those flipped an odd number of times. */
  lemma ReplayTrueKeys(keys: seq<string>)
    ensures TrueKeys(Replay(map[], keys)) == OddOccurring(keys)
  {
    forall k ensures k in TrueKeys(Replay(map[], keys)) <==> k in OddOccurring(keys) {
      ReplayParity(keys, k);
    }
  }

  /** A key that was never flipped reads as false. */
  lemma NeverFlippedReadsFalse(keys: seq<string>, key: string)
    requires key !in keys
    ensures !Lookup(Replay(map[], keys), key)
  {
  }

  /** The keys whose stored value is true. */
  function TrueKeys(m: map<string, bool>): set<string>
  {
    set k | k in m && m[k]
  }

  /**
    `Object.values(m).filter(Boolean).length`: how many stored values are true. It is at most
    the number of stored keys, and zero exactly when no key reads as true.
   */
  function CountTrue(m: map<string, bool>): (n: nat)
    ensures n <= |m|
    ensures n == 0 <==> forall k :: !Lookup(m, k)
  {
    assert TrueKeys(m) <= m.Keys;
    SubsetSize(TrueKeys(m), m.Keys);
    TrueKeysWitness(m);
    |TrueKeys(m)|
  }

  lemma TrueKeysWitness(m: map<string, bool>)
    ensures forall k :: Lookup(m, k) ==> k in TrueKeys(m)
    ensures TrueKeys(m) != {} ==> exists k :: Lookup(m, k)
  {
    if TrueKeys(m) != {} {
      var k :| k in TrueKeys(m);
      assert Lookup(m, k);
    }
  }

  lemma {:induction false} SubsetSize(a: set<string>, b: set<string>)
    requires a <= b
    ensures |a| <= |b|
    decreases |b|
  {
    if a != {} {
      var x :| x in a;
      SubsetSize(a - {x}, b - {x});
    }
  }

  /** The stored values, listed in the order of `keys`, counting those that are true. */
  function TrueValuesAlong(m: map<string, bool>, keys: seq<string>): nat
    decreases |keys|
  {
    if keys == [] then 0
    else TrueValuesAlong(m, keys[..|keys| - 1]) + (if Lookup(m, keys[|keys| - 1]) then 1 else 0)
  }

  /** Along a list without duplicates, the true values counted are those of the listed keys that read as true. */
  lemma {:induction false} TrueValuesAlongCount(m: map<string, bool>, keys: seq<string>)
    requires NoDuplicates(keys)
    ensures TrueValuesAlong(m, keys) == |set k | k in keys && Lookup(m, k)|
    decreases |keys|
  {
    if keys != [] {
      var prefix, last := keys[..|keys| - 1], keys[|keys| - 1];
      assert keys == prefix + [last];
      assert last !in prefix;
      var before := set k | k in prefix && Lookup(m, k);
      if Lookup(m, last) {
        assert (set k | k in keys && Lookup(m, k)) == before + {last};
      } else {
        assert (set k | k in keys && Lookup(m, k)) == before;
      }
      TrueValuesAlongCount(m, prefix);
    }
  }

  /**
    Filtering the values of the object in any order of its keys gives the same count as `CountTrue`:
    the count does not depend on how the keys are enumerated.
   */
  lemma CountTrueIsFilterLength(m: map<string, bool>, keys: seq<string>)
    requires NoDuplicates(keys)
    requires forall k :: k in keys <==> k in m
    ensures CountTrue(m) == TrueValuesAlong(m, keys)
  {
    TrueValuesAlongCount(m, keys);
    assert (set k | k in keys && Lookup(m, k)) == TrueKeys(m);
  }

  /** Flipping an unchecked key adds exactly one true value; flipping a checked key removes exactly one. */
  lemma CountTrueFlip(m: map<string, bool>, key: string)
    ensures !Lookup(m, key) ==> CountTrue(Flip(m, key)) == CountTrue(m) + 1
    ensures Lookup(m, key) ==> CountTrue(Flip(m, key)) == CountTrue(m) - 1
  {
    var before, after := TrueKeys(m), TrueKeys(Flip(m, key));
    if Lookup(m, key) {
      assert after == before - {key};
      assert before == after + {key} && key !in after;
    } else {
      assert after == before + {key} && key !in before;
    }
  }

  predicate NoDuplicates(s: seq<string>)
  {
    forall i, j :: 0 <= i < j < |s| ==> s[i] != s[j]
  }
}
