/** The check of the bearer header (RFC 6750, section 2.1) in time independent of its value. */
module Auth {
  type Byte = bv8

  /** "Bearer " */
  const PREFIX: seq<Byte> := [0x42, 0x65, 0x61, 0x72, 0x65, 0x72, 0x20]

  /** PROF_KEY_MAX */
  const KEY_MAX: nat := 128

  datatype Header = Missing | Value(bytes: seq<Byte>)

  /** Who may pass: everybody without a configured key, else whoever presents it. */
  predicate Authorized(header: Header, key: seq<Byte>) {
    key == [] || (header.Value? && header.bytes == PREFIX + key)
  }

  lemma XorZero(a: Byte, b: Byte)
    ensures a ^ b == 0 <==> a == b
  {
  }

  lemma OrZero(a: Byte, b: Byte)
    ensures a | b == 0 <==> a == 0 && b == 0
  {
  }

  /** check_auth; `rounds` counts the iterations of the two comparison loops. */
  method CheckAuth(header: Header, key: seq<Byte>) returns (rc: int, rounds: nat)
    requires |key| < KEY_MAX && 0 !in key
    ensures rc == if Authorized(header, key) then 0 else -1
    ensures rc == 0 <==>
      key == [] || header == Value([0x42, 0x65, 0x61, 0x72, 0x65, 0x72, 0x20] + key)
    ensures key != [] && header.Value? ==> rounds == |PREFIX| + |key|
  {
    rounds := 0;
    if key == [] {
      return 0, 0;
    }
    if header.Missing? {
      return -1, 0;
    }
    var auth := header.bytes;
    var expected := PREFIX + key;
    var diff: Byte := if |auth| != |expected| then 1 else 0;
    var n := if |auth| < |expected| then |auth| else |expected|;
    var i := 0;
    while i < n
      invariant i <= n && rounds == i
      invariant diff == 0 <==> |auth| == |expected| && auth[..i] == expected[..i]
    {
      XorZero(auth[i], expected[i]);
      OrZero(diff, auth[i] ^ expected[i]);
      assert auth[..i + 1] == auth[..i] + [auth[i]] && expected[..i + 1] == expected[..i] + [expected[i]];
      diff := diff | (auth[i] ^ expected[i]);
      i, rounds := i + 1, rounds + 1;
    }
    ghost var same := |auth| == |expected| && auth[..n] == expected[..n];
    while i < |expected|
      invariant n <= i <= |expected| && rounds == i
      invariant i > n ==> |auth| != |expected|
      invariant diff == 0 <==> same
    {
      OrZero(diff, expected[i]);
      diff := diff | expected[i];
      i, rounds := i + 1, rounds + 1;
    }
    assert same <==> auth == expected by {
      if same { assert auth == auth[..n] && expected == expected[..n]; }
    }
    rc := if diff != 0 then -1 else 0;
  }
}
