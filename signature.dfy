/**
 * The SHA-256 signatures exchanged with Netgíró. The digest function itself
 * is a parameter: every statement here holds for whichever function computes
 * the hex digest, so nothing depends on SHA-256's internals.
 */
module Signature {
  import Php

  /** The lowercase hex SHA-256 digest of a string. */
  type Hasher = string -> string

  /** The concatenation of the parts, in order. */
  function Concat(parts: seq<string>): (r: string)
    ensures |parts| == 1 ==> r == parts[0]
  {
    if parts == [] then "" else Concat(parts[..|parts| - 1]) + parts[|parts| - 1]
  }

  /** Joining a list split in two is joining each half, then the halves:
    * the values may be passed in any grouping. */
  lemma {:induction false} ConcatAppend(xs: seq<string>, ys: seq<string>)
    ensures Concat(xs + ys) == Concat(xs) + Concat(ys)
    decreases |ys|
  {
    if ys == [] {
      assert xs + ys == xs;
    } else {
      var last := |ys| - 1;
      assert (xs + ys)[..|xs + ys| - 1] == xs + ys[..last];
      ConcatAppend(xs, ys[..last]);
    }
  }

  /** Four parts are joined without separators. */
  lemma ConcatFour(a: string, b: string, c: string, d: string)
    ensures Concat([a, b, c, d]) == a + b + c + d
  {
    assert [a, b, c, d][..3] == [a, b, c];
    assert [a, b, c][..2] == [a, b];
    assert [a, b][..1] == [a];
    assert Concat([a, b]) == a + b;
    assert Concat([a, b, c]) == a + b + c;
  }

  /**
   * `generateSignature`: concatenates the values in order, then hashes the
   * result once.
   */
  method GenerateSignature(hash: Hasher, hashValues: seq<string>) returns (signature: string)
    ensures signature == hash(Concat(hashValues))
  {
    var joined := "";
    var i := 0;
    while i < |hashValues|
      invariant 0 <= i <= |hashValues|
      invariant joined == Concat(hashValues[..i])
    {
      assert hashValues[..i + 1][..i] == hashValues[..i];
      joined := joined + hashValues[i];
      i := i + 1;
    }
    assert hashValues[..i] == hashValues;
    signature := hash(joined);
  }

  /** The redirect signature: sha256(secret . order id . total . application id). */
  function PaymentSignature(hash: Hasher, secret: string, orderId: string, total: string, appId: string): string
  {
    hash(secret + orderId + total + appId)
  }

  /** The return signature: sha256(secret . reference . transaction . invoice . total . status). */
  function ReturnSignature(hash: Hasher, secret: string, ref: string, txn: string, invoice: string,
                           total: string, status: string): string
  {
    hash(secret + ref + txn + invoice + total + status)
  }

  /** The signature of the 3.6.1, 3.3.3 and 2.6.9 returns: sha256(secret . order id). */
  function OrderSignature(hash: Hasher, secret: string, orderId: string): string
  {
    hash(secret + orderId)
  }

  /** The v1 API request signature: sha256(secret . nonce . url . body). */
  function RequestSignature(hash: Hasher, secret: string, nonce: string, url: string, body: string): (r: string)
    ensures r == hash(Concat([secret, nonce, url, body]))
  {
    ConcatFour(secret, nonce, url, body);
    hash(secret + nonce + url + body)
  }

  /** The signed text binds the order id: with the secret, total and
    * application id fixed, two different order ids give different texts. */
  lemma SignedTextBindsOrderId(secret: string, id1: nat, id2: nat, total: string, appId: string)
    requires secret + Php.NatToString(id1) + total + appId == secret + Php.NatToString(id2) + total + appId
    ensures id1 == id2
  {
    var n1, n2 := Php.NatToString(id1), Php.NatToString(id2);
    var a := secret + n1 + total + appId;
    assert |n1| == |n2|;
    assert a[|secret|..|secret| + |n1|] == n1;
    assert a[|secret|..|secret| + |n2|] == n2;
  }
}
