/**
 The discriminator dispatch shared by every tagged resource family: a family
 is declared as a closed table of (discriminator, variant) pairs, and a
 payload is routed to the first entry whose discriminator equals its
 `_class` field.  A payload whose discriminator is absent or matches no entry
 is not an error: the family's decoder turns it into its `Unknown` variant.
 */
module Tagged {
  import opened Client

  type Table<K> = seq<(string, K)>

  /** No discriminator appears twice in the table. */
  ghost predicate DistinctKeys<K>(t: Table<K>)
  {
    forall i, j :: 0 <= i < j < |t| ==> t[i].0 != t[j].0
  }

  /** Some entry of the table carries discriminator `key`. */
  ghost predicate HasKey<K>(t: Table<K>, key: string)
  {
    exists i :: 0 <= i < |t| && t[i].0 == key
  }

  /** The discriminator is present and selects an entry of the family's table. */
  ghost predicate IsKnownClass<K>(t: Table<K>, discriminator: Option<string>)
  {
    discriminator.Some? && HasKey(t, discriminator.value)
  }

  /** The variant of the first entry whose discriminator is `key`, if any. */
  function Lookup<K>(t: Table<K>, key: string): (r: Option<K>)
    ensures r.None? <==> !HasKey(t, key)
    ensures r.Some? ==> exists i :: 0 <= i < |t| && t[i] == (key, r.value) &&
                                    forall j :: 0 <= j < i ==> t[j].0 != key
  {
    if |t| == 0 then None
    else if t[0].0 == key then Some(t[0].1)
    else
      var r := Lookup(t[1..], key);
      assert forall i :: 0 <= i < |t| - 1 ==> t[1..][i] == t[i + 1];
      assert r.Some? ==> exists i :: 0 <= i < |t| && t[i] == (key, r.value) &&
                                     forall j :: 0 <= j < i ==> t[j].0 != key by {
        if r.Some? {
          var i :| 0 <= i < |t| - 1 && t[1..][i] == (key, r.value) &&
                   forall j :: 0 <= j < i ==> t[1..][j].0 != key;
          assert t[i + 1] == (key, r.value);
          assert forall j :: 0 <= j < i + 1 ==> t[j].0 != key by {
            forall j | 0 <= j < i + 1 ensures t[j].0 != key {
              if j > 0 { assert t[j] == t[1..][j - 1]; }
            }
          }
        }
      }
      assert r.None? ==> !HasKey(t, key) by {
        if r.None? {
          forall i | 0 <= i < |t| ensures t[i].0 != key {
            if i > 0 { assert t[i] == t[1..][i - 1]; }
          }
        }
      }
      r
  }

  /** With distinct discriminators, every entry is found under its own discriminator. */
  lemma LookupEntry<K>(t: Table<K>, i: nat)
    requires DistinctKeys(t)
    requires i < |t|
    ensures Lookup(t, t[i].0) == Some(t[i].1)
  {
    var r := Lookup(t, t[i].0);
    var k :| 0 <= k < |t| && t[k] == (t[i].0, r.value) &&
             forall j :: 0 <= j < k ==> t[j].0 != t[i].0;
    assert k == i;
  }

  /** The variant that a payload's optional discriminator selects in a family's table. */
  function Classify<K>(t: Table<K>, discriminator: Option<string>): (r: Option<K>)
    ensures r.Some? <==> IsKnownClass(t, discriminator)
    ensures r.Some? ==> exists i :: 0 <= i < |t| && t[i] == (discriminator.value, r.value)
  {
    match discriminator
    case None => None
    case Some(key) => Lookup(t, key)
  }
}
