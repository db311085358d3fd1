/** The check of the Authorization header against the configured key. */
module Auth {
  import opened Wrappers

  type Bytes = seq<bv8>

  /** "Bearer " in ASCII. */
  const BEARER_PREFIX: Bytes := [66, 101, 97, 114, 101, 114, 32]

  /** Byte `i` of `s`, padded with 0xFF. */
  function Padded(s: Bytes, i: nat): bv8 {
    if i < |s| then s[i] else 0xFF
  }

  lemma XorIsZeroForEqualsOnly(diff: bv8, a: bv8, b: bv8)
    ensures diff | (a ^ b) == 0 <==> diff == 0 && a == b
  {
  }

  lemma HeaderSplits(prefix: Bytes, header: Bytes, key: Bytes)
    requires |header| == |prefix| + |key|
    ensures header == prefix + key <==>
            prefix <= header && forall j | 0 <= j < |key| :: Padded(header, |prefix| + j) == Padded(key, j)
  {
    if header == prefix + key {
      forall j | 0 <= j < |key| ensures Padded(header, |prefix| + j) == Padded(key, j) {
        assert (prefix + key)[|prefix| + j] == key[j];
      }
    }
    if prefix <= header && forall j | 0 <= j < |key| :: Padded(header, |prefix| + j) == Padded(key, j) {
      forall j | 0 <= j < |key| ensures header[|prefix|..][j] == key[j] {
        assert Padded(header, |prefix| + j) == Padded(key, j);
      }
      assert header[|prefix|..] == key;
      assert header == header[..|prefix|] + header[|prefix|..];
    }
  }

  /** check_auth. Without a configured key everything passes; with one, exactly the header made of the prefix
      and the key, and the loop runs as often as the key is long, at least once, whatever the header is. */
  method CheckAuth(header: Bytes, apiKey: Option<Bytes>) returns (accepted: bool, ghost iterations: nat)
    ensures accepted <==> apiKey.None? || header == BEARER_PREFIX + apiKey.value
    ensures iterations == match apiKey case None => 0 case Some(key) => if key == [] then 1 else |key|
  {
    iterations := 0;
    if apiKey.None? {
      return true, iterations;
    }
    var key := apiKey.value;
    var keyStart := |BEARER_PREFIX|;
    var compareLength := if |key| < 1 then 1 else |key|;
    var diff: bv8 := 0;
    if |header| < keyStart || header[..keyStart] != BEARER_PREFIX {
      diff := 1;
    }
    var lengthMismatch: bv8 := if |header| != keyStart + |key| then 1 else 0;
    for i := 0 to compareLength
      invariant iterations == i
      invariant diff == 0 <==>
                BEARER_PREFIX <= header && forall j | 0 <= j < i :: Padded(header, keyStart + j) == Padded(key, j)
    {
      var a := if keyStart + i < |header| then header[keyStart + i] else 0xFF;
      var b := if i < |key| then key[i] else 0xFF;
      XorIsZeroForEqualsOnly(diff, a, b);
      assert a == Padded(header, keyStart + i) && b == Padded(key, i);
      diff := diff | (a ^ b);
      iterations := iterations + 1;
    }
    XorIsZeroForEqualsOnly(diff, lengthMismatch, 0);
    assert lengthMismatch ^ 0 == lengthMismatch;
    diff := diff | lengthMismatch;
    if |header| == keyStart + |key| {
      HeaderSplits(BEARER_PREFIX, header, key);
    }
    accepted := diff == 0;
  }
}
