/** The vibe tag that picks the page's colour theme. The tags are the keys of the
    `vibeColors` record in declaration order; a successful command moves to the key after
    the current one, wrapping round (`vibes[(vibes.indexOf(currentVibe) + 1) % vibes.length]`). */
module Vibes {

  /** `Object.keys(vibeColors)`: string keys come back in insertion order. */
  const VibeKeys: seq<string> :=
    ["chill", "productive", "creative", "energetic", "relaxed", "focused"]

  /** The vibe a session starts with. */
  const InitialVibe: string := "chill"

  /** No key is listed twice, so each has exactly one position. */
  predicate Distinct<K(==)>(keys: seq<K>) {
    forall i, j :: 0 <= i < j < |keys| ==> keys[i] != keys[j]
  }

  /** The six tags are all different. */
  lemma {:induction false} VibeKeysDistinct()
    ensures Distinct(VibeKeys)
  {
  }

  /** `keys.indexOf(v)`: the first position holding `v`, or -1 when there is none. */
  function IndexOf<K(==)>(keys: seq<K>, v: K): (i: int)
    ensures -1 <= i < |keys|
    ensures i == -1 <==> v !in keys
    ensures 0 <= i ==> keys[i] == v && forall j :: 0 <= j < i ==> keys[j] != v
  {
    if keys == [] then -1
    else if keys[0] == v then 0
    else
      var k := IndexOf(keys[1..], v);
      if k == -1 then -1 else k + 1
  }

  /** `keys[(keys.indexOf(v) + 1) % keys.length]`: the key after `v`, wrapping round.
      The result is always a key; a value that is not a key has index -1 and so moves to
      the first key. The dividend is never negative, so JavaScript's `%` and Dafny's agree. */
  function NextKey<K(==)>(keys: seq<K>, v: K): (r: K)
    requires keys != []
    ensures r in keys
    ensures v !in keys ==> r == keys[0]
  {
    keys[(IndexOf(keys, v) + 1) % |keys|]
  }

  /** In a list without repeats, the position of a key is where it stands. */
  lemma {:induction false} IndexOfDistinct<K>(keys: seq<K>, k: nat)
    requires Distinct(keys) && k < |keys|
    ensures IndexOf(keys, keys[k]) == k
  {
  }

  /** Positions: the one after `i` in a list of `m` keys, wrapping round. */
  function NextIndex(i: nat, m: nat): nat {
    if i + 1 >= m then 0 else i + 1
  }

  /** The key after the one at position `k` is the one at the next position, and the
      last key is followed by the first. */
  lemma {:induction false} NextKeyAt<K>(keys: seq<K>, k: nat)
    requires Distinct(keys) && k < |keys|
    ensures NextKey(keys, keys[k]) == keys[NextIndex(k, |keys|)]
  {
    IndexOfDistinct(keys, k);
    NextIndexIsSuccessorMod(k, |keys|);
  }

  /** Stepping one position forward with wrap-around is adding one modulo the length. */
  lemma {:induction false} NextIndexIsSuccessorMod(i: nat, m: nat)
    requires i < m
    ensures NextIndex(i, m) == (i + 1) % m
  {
    if i + 1 == m {
      assert (i + 1) % m == 0;
    }
  }

  /** The value after `n` successive moves to the next key. */
  function Rotate<K(==)>(keys: seq<K>, v: K, n: nat): K
    requires keys != []
    decreases n
  {
    if n == 0 then v else Rotate(keys, NextKey(keys, v), n - 1)
  }

  /** Positions: the one `n` moves after `i`. */
  function RotateIndex(i: nat, n: nat, m: nat): nat
    decreases n
  {
    if n == 0 then i else RotateIndex(NextIndex(i, m), n - 1, m)
  }

  /** In a list without repeats, `n` moves from the key at position `k` reach the key at
      the position `n` steps further round. */
  lemma {:induction false} RotateAt<K>(keys: seq<K>, k: nat, n: nat)
    requires Distinct(keys) && k < |keys|
    ensures RotateIndex(k, n, |keys|) < |keys|
    ensures Rotate(keys, keys[k], n) == keys[RotateIndex(k, n, |keys|)]
    decreases n
  {
    if n > 0 {
      NextKeyAt(keys, k);
      RotateAt(keys, NextIndex(k, |keys|), n - 1);
    }
  }

  /** The vibe after a successful command. */
  function NextVibe(v: string): (r: string)
    ensures r in VibeKeys
    ensures v !in VibeKeys ==> r == InitialVibe
  {
    NextKey(VibeKeys, v)
  }

  /** The whole cycle, spelled out: chill, productive, creative, energetic, relaxed,
      focused, and back to chill. */
  lemma {:induction false} VibeCycle()
    ensures NextVibe("chill") == "productive"
    ensures NextVibe("productive") == "creative"
    ensures NextVibe("creative") == "energetic"
    ensures NextVibe("energetic") == "relaxed"
    ensures NextVibe("relaxed") == "focused"
    ensures NextVibe("focused") == "chill"
  {
    VibeKeysDistinct();
    NextKeyAt(VibeKeys, 0);
    NextKeyAt(VibeKeys, 1);
    NextKeyAt(VibeKeys, 2);
    NextKeyAt(VibeKeys, 3);
    NextKeyAt(VibeKeys, 4);
    NextKeyAt(VibeKeys, 5);
  }

  /** The vibe after `n` successful commands in a row. */
  function AfterSuccesses(v: string, n: nat): string {
    Rotate(VibeKeys, v, n)
  }

  /** Among six positions, `n` moves from `i` land on `(i + n) % 6`. */
  lemma {:induction false} RotateIndexSix(i: nat, n: nat)
    requires i < 6
    ensures RotateIndex(i, n, 6) == (i + n) % 6
    decreases n
  {
    if n > 0 {
      RotateIndexSix(NextIndex(i, 6), n - 1);
    }
  }

  /** In a list of six distinct keys, a key comes back exactly when the number of moves
      is a multiple of six. */
  lemma {:induction false} ReturnsIffMultipleOfSix<K>(keys: seq<K>, k: nat, n: nat)
    requires Distinct(keys) && |keys| == 6 && k < 6
    ensures Rotate(keys, keys[k], n) == keys[k] <==> n % 6 == 0
  {
    RotateAt(keys, k, n);
    RotateIndexSix(k, n);
    ShiftReturns(k, n);
    var j := (k + n) % 6;
    assert keys[j] == keys[k] <==> j == k;
  }

  /** Counting round six positions from `k`, `n` steps land back on `k` exactly when `n`
      is a multiple of six. */
  lemma {:induction false} ShiftReturns(k: nat, n: nat)
    requires k < 6
    ensures (k + n) % 6 == k <==> n % 6 == 0
  {
    var q, r := n / 6, n % 6;
    assert k + n == 6 * q + (k + r);
    assert (k + n) % 6 == (k + r) % 6;
  }

  /** A listed vibe comes back exactly when the number of successes in a row is a
      multiple of six; in particular six successes return to the starting vibe. */
  lemma {:induction false} ReturnsAfterMultiplesOfSix(v: string, n: nat)
    requires v in VibeKeys
    ensures AfterSuccesses(v, n) == v <==> n % 6 == 0
  {
    VibeKeysDistinct();
    ReturnsIffMultipleOfSix(VibeKeys, IndexOf(VibeKeys, v), n);
  }
}
