/**
 * PHP's ordered string-keyed arrays, as the forms build them: a sequence of
 * key/value pairs where `$a[$k] = $v` replaces the value of an existing key
 * in place and appends a new key at the end. Values are the text each
 * field is rendered as.
 */
module Fields {
  import opened Wrappers

  type Pairs = seq<(string, string)>

  /** `array_key_exists($k, $a)`. */
  predicate HasKey(kvs: Pairs, k: string)
  {
    exists i :: 0 <= i < |kvs| && kvs[i].0 == k
  }

  /** `$a[$k] ?? null`. */
  function Lookup(kvs: Pairs, k: string): (r: Option<string>)
    ensures r.Some? <==> HasKey(kvs, k)
  {
    if kvs == [] then None
    else if kvs[0].0 == k then Some(kvs[0].1)
    else
      var r := Lookup(kvs[1..], k);
      assert HasKey(kvs, k) ==> HasKey(kvs[1..], k) by {
        if HasKey(kvs, k) {
          var i :| 0 <= i < |kvs| && kvs[i].0 == k;
          assert kvs[1..][i - 1] == kvs[i];
        }
      }
      r
  }

  /** `$a[$k] = $v`: the keys stay as they are, in place, when the key is
    * present, and the pair is appended when it is not. */
  function Put(kvs: Pairs, k: string, v: string): (r: Pairs)
    ensures !HasKey(kvs, k) ==> r == kvs + [(k, v)]
    ensures HasKey(kvs, k) ==> |r| == |kvs| && forall i :: 0 <= i < |r| ==> r[i].0 == kvs[i].0
    decreases |kvs|
  {
    if kvs == [] then [(k, v)]
    else if kvs[0].0 == k then [(k, v)] + kvs[1..]
    else
      var rest := Put(kvs[1..], k, v);
      assert HasKey(kvs, k) <==> HasKey(kvs[1..], k) by {
        if HasKey(kvs, k) {
          var i :| 0 <= i < |kvs| && kvs[i].0 == k;
          assert kvs[1..][i - 1] == kvs[i];
        }
        if HasKey(kvs[1..], k) {
          var i :| 0 <= i < |kvs[1..]| && kvs[1..][i].0 == k;
          assert kvs[i + 1] == kvs[1..][i];
        }
      }
      assert kvs == [kvs[0]] + kvs[1..];
      [kvs[0]] + rest
  }

  /** After `$a[$k] = $v`, `$a[$k]` is `$v` and every other key reads as before. */
  lemma {:induction false} PutLookup(kvs: Pairs, k: string, v: string, other: string)
    ensures Lookup(Put(kvs, k, v), k) == Some(v)
    ensures other != k ==> Lookup(Put(kvs, k, v), other) == Lookup(kvs, other)
    decreases |kvs|
  {
    if kvs != [] && kvs[0].0 != k {
      PutLookup(kvs[1..], k, v, other);
    }
  }

  /** No key occurs twice. */
  predicate DistinctKeys(kvs: Pairs)
  {
    forall i, j :: 0 <= i < j < |kvs| ==> kvs[i].0 != kvs[j].0
  }

  /** When the keys are distinct, every listed pair is what Lookup finds. */
  lemma {:induction false} LookupListed(kvs: Pairs, i: nat)
    requires DistinctKeys(kvs) && i < |kvs|
    ensures Lookup(kvs, kvs[i].0) == Some(kvs[i].1)
  {
    if i > 0 {
      assert kvs[0].0 != kvs[i].0;
      assert DistinctKeys(kvs[1..]) by {
        forall a, b | 0 <= a < b < |kvs[1..]| ensures kvs[1..][a].0 != kvs[1..][b].0 {
          assert kvs[1..][a] == kvs[a + 1] && kvs[1..][b] == kvs[b + 1];
        }
      }
      LookupListed(kvs[1..], i - 1);
      assert kvs[1..][i - 1] == kvs[i];
    }
  }

  /** A key is in a concatenation iff it is in one of the parts. */
  lemma HasKeyAppend(a: Pairs, b: Pairs, k: string)
    ensures HasKey(a + b, k) <==> HasKey(a, k) || HasKey(b, k)
  {
    if HasKey(a + b, k) {
      var i :| 0 <= i < |a + b| && (a + b)[i].0 == k;
      if i >= |a| {
        assert b[i - |a|] == (a + b)[i];
      }
    }
    if HasKey(b, k) {
      var i :| 0 <= i < |b| && b[i].0 == k;
      assert (a + b)[|a| + i] == b[i];
    }
    if HasKey(a, k) {
      var i :| 0 <= i < |a| && a[i].0 == k;
      assert (a + b)[i] == a[i];
    }
  }

  /** Appending pairs does not change what an existing key reads. */
  lemma {:induction false} LookupAppend(a: Pairs, b: Pairs, k: string)
    requires HasKey(a, k)
    ensures Lookup(a + b, k) == Lookup(a, k)
    decreases |a|
  {
    assert a != [];
    if a[0].0 != k {
      assert (a + b)[1..] == a[1..] + b;
      var i :| 0 <= i < |a| && a[i].0 == k;
      assert a[1..][i - 1] == a[i];
      LookupAppend(a[1..], b, k);
    }
  }

  /** A key absent from the first part is looked up in the second. */
  lemma {:induction false} LookupSkip(a: Pairs, b: Pairs, k: string)
    requires !HasKey(a, k)
    ensures Lookup(a + b, k) == Lookup(b, k)
    decreases |a|
  {
    if a != [] {
      assert a[0].0 != k;
      assert (a + b)[0] == a[0];
      assert (a + b)[1..] == a[1..] + b;
      assert !HasKey(a[1..], k) by {
        forall i | 0 <= i < |a[1..]| ensures a[1..][i].0 != k {
          assert a[1..][i] == a[i + 1];
        }
      }
      LookupSkip(a[1..], b, k);
    } else {
      assert a + b == b;
    }
  }
}
