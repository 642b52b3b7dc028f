/**
 * The two persisted options and the array operations the plugin applies to
 * them.
 *
 * `plugins_using_blocks` is a PHP array from plugin basename to `true`; since
 * every value is `true`, it is modelled by its keys in insertion order, which
 * are distinct. `theme_using_blocks` is a scalar option.
 */
module BlockOptions {

  /** The values `theme_using_blocks` can hold. */
  datatype ThemeOption =
    | Absent  // never written
    | Zero    // '0': reset on theme switch
    | One     // '1': the current theme called a watched function
    | Two     // '2': the parent theme called a watched function
    | False   // false: reset after a theme update

  /** Both options as stored. */
  datatype Options = Options(plugins: seq<string>, theme: ThemeOption)

  /** The keys of a PHP array are unique. */
  ghost predicate Distinct(keys: seq<string>) {
    forall i, j :: 0 <= i < j < |keys| ==> keys[i] != keys[j]
  }

  /**
   * `if (!array_key_exists($key, $m)) { $m[$key] = true; }`: a new key goes
   * at the end; existing keys keep their place.
   */
  function InsertIfAbsent(keys: seq<string>, key: string): (r: seq<string>)
    ensures keys <= r
    ensures forall x :: x in r <==> x in keys || x == key
    ensures |r| <= |keys| + 1
    ensures Distinct(keys) ==> Distinct(r)
  {
    if key in keys then keys else keys + [key]
  }

  /**
   * The keys left after `unset` of every key listed in `gone`, in their
   * original order.
   */
  function Without(keys: seq<string>, gone: seq<string>): (r: seq<string>)
    ensures forall x :: x in r <==> x in keys && x !in gone
    ensures |r| <= |keys|
  {
    if keys == [] then []
    else (if keys[0] in gone then [] else [keys[0]]) + Without(keys[1..], gone)
  }

  /** Inserting a key that is already there changes nothing, so inserting twice is inserting once. */
  lemma InsertIfAbsentIdempotent(keys: seq<string>, key: string)
    ensures InsertIfAbsent(InsertIfAbsent(keys, key), key) == InsertIfAbsent(keys, key)
  {
  }

  /** Removing keys keeps the remaining keys unique. */
  lemma {:induction false} WithoutDistinct(keys: seq<string>, gone: seq<string>)
    requires Distinct(keys)
    ensures Distinct(Without(keys, gone))
  {
    if keys != [] {
      assert Distinct(keys[1..]);
      WithoutDistinct(keys[1..], gone);
      assert keys[0] !in keys[1..];
    }
  }

  /**
   * Removal works element by element, so it distributes over concatenation:
   * the kept keys keep their relative order.
   */
  lemma {:induction false} WithoutSplits(a: seq<string>, b: seq<string>, gone: seq<string>)
    ensures Without(a + b, gone) == Without(a, gone) + Without(b, gone)
  {
    if a == [] {
      assert a + b == b;
    } else {
      assert (a + b)[1..] == a[1..] + b;
      WithoutSplits(a[1..], b, gone);
    }
  }

  /** When no listed key is present, nothing is removed. */
  lemma {:induction false} WithoutNothingListed(keys: seq<string>, gone: seq<string>)
    requires forall i :: 0 <= i < |keys| ==> keys[i] !in gone
    ensures Without(keys, gone) == keys
  {
    if keys != [] {
      WithoutNothingListed(keys[1..], gone);
    }
  }

  /** Removing the same keys a second time changes nothing. */
  lemma WithoutIdempotent(keys: seq<string>, gone: seq<string>)
    ensures Without(Without(keys, gone), gone) == Without(keys, gone)
  {
    var once := Without(keys, gone);
    assert forall i :: 0 <= i < |once| ==> once[i] in once;
    WithoutNothingListed(once, gone);
  }

  /** Removing the keys of `gone` and then `key` is removing the keys of `gone + [key]`. */
  lemma {:induction false} WithoutStep(keys: seq<string>, gone: seq<string>, key: string)
    ensures Without(Without(keys, gone), [key]) == Without(keys, gone + [key])
  {
    if keys != [] {
      WithoutStep(keys[1..], gone, key);
      var head := if keys[0] in gone then [] else [keys[0]];
      WithoutSplits(head, Without(keys[1..], gone), [key]);
    }
  }

  /** Removing two lists of keys gives the same keys in either order. */
  lemma {:induction false} WithoutCommutes(keys: seq<string>, a: seq<string>, b: seq<string>)
    ensures Without(Without(keys, a), b) == Without(Without(keys, b), a)
  {
    if keys != [] {
      WithoutCommutes(keys[1..], a, b);
      var headA := if keys[0] in a then [] else [keys[0]];
      var headB := if keys[0] in b then [] else [keys[0]];
      WithoutSplits(headA, Without(keys[1..], a), b);
      WithoutSplits(headB, Without(keys[1..], b), a);
    }
  }

  /**
   * One pass of the upgrade handler's loop: unsetting `key` when present
   * (and doing nothing otherwise) after removing `done` removes `done + [key]`.
   */
  lemma UnsetStep(keys: seq<string>, done: seq<string>, key: string)
    ensures var before := Without(keys, done);
      (if key in before then Without(before, [key]) else before) == Without(keys, done + [key])
  {
    WithoutStep(keys, done, key);
    var before := Without(keys, done);
    if key !in before {
      WithoutNothingListed(before, [key]);
    }
  }
}
