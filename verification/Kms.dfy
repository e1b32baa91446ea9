/**
  The KMS sender: a raw ECDSA signature is brought to low s, laid out as R || S || V in 65 bytes,
  and V is found by recovering the key. The curve is a cyclic group of odd prime order.
*/
module Kms {
  import opened Types
  import opened BigEndian
  import opened Modular

  /**
    A point is its multiple of the generator, 0 the identity. `xOf` and `odd` give a point's
    x-coordinate and the parity of its y-coordinate, `lift` the point with a given x and parity.
  */
  datatype Curve = Curve(n: nat, xOf: nat -> nat, odd: nat -> bool, lift: (nat, bool) -> Option<nat>) {

    predicate IsPoint(p: nat) {
      0 < p < n
    }

    /** A point and its negative share x and differ in parity, and no other points share x. */
    ghost predicate Valid() {
      && Prime(n) && 2 < n < Values(32)
      && (forall p: nat, q: nat | IsPoint(p) && IsPoint(q) :: xOf(p) == xOf(q) <==> p == q || p + q == n)
      && (forall p: nat | IsPoint(p) :: odd(p) != odd(n - p))
      && (forall x: nat, v: bool, p: nat :: lift(x, v) == Some(p) <==> IsPoint(p) && xOf(p) == x && odd(p) == v)
    }
  }

  // ---------------------------------------------------------------- SEC 1, section 4.1

  predicate InRange(c: Curve, k: int) {
    0 < k < c.n
  }

  /** The point of verification, u1 * G + u2 * Q. */
  function VerifyPoint(c: Curve, key: nat, z: nat, r: nat, s: nat): nat
    requires c.n > 0
  {
    var w := Inv(c.n, s);
    ((z * w) % c.n + ((r * w) % c.n) * key) % c.n
  }

  predicate Verifies(c: Curve, key: nat, z: nat, r: nat, s: nat)
    requires c.n > 0
  {
    && InRange(c, r) && InRange(c, s)
    && VerifyPoint(c, key, z, r, s) != 0
    && c.xOf(VerifyPoint(c, key, z, r, s)) % c.n == r
  }

  /** The signature of digest z with nonce k. */
  function RawR(c: Curve, k: nat): nat
    requires c.n > 0
  {
    c.xOf(k) % c.n
  }

  function RawS(c: Curve, key: nat, z: nat, k: nat): nat
    requires c.n > 0
  {
    (Inv(c.n, k) * (z + RawR(c, k) * key)) % c.n
  }

  /** The key a candidate point stands for, r^-1 (s R - z G). */
  function Candidate(c: Curve, z: nat, r: nat, s: nat, p: nat): nat
    requires c.n > 0
  {
    (Inv(c.n, r) * (s * p - z)) % c.n
  }

  /** Public key recovery; the identity is no key. */
  function Recover(c: Curve, z: nat, r: nat, s: nat, v: nat): Option<nat>
    requires c.n > 0
  {
    if !InRange(c, r) || !InRange(c, s) || v >= 4 then None
    else
      var p := c.lift(r + (v / 2) * c.n, v % 2 == 1);
      if p.None? || Candidate(c, z, r, s, p.value) == 0 then None
      else Some(Candidate(c, z, r, s, p.value))
  }

  const LENGTH := 65

  /** crypto.Ecrecover on R || S || V. */
  function Ecrecover(c: Curve, z: nat, sig: Bytes): Option<nat>
    requires c.n > 0 && |sig| == LENGTH
  {
    Recover(c, z, Value(sig[..32]), Value(sig[32..64]), sig[64] as nat)
  }

  // ---------------------------------------------------------------- the points

  lemma VerifyPointIs(c: Curve, key: nat, z: nat, r: nat, s: nat)
    requires c.n > 0
    ensures Cong(c.n, VerifyPoint(c, key, z, r, s), Inv(c.n, s) * (z + r * key))
  {
    var n, w := c.n, Inv(c.n, s);
    var u1, u2 := (z * w) % n, (r * w) % n;
    CongMod(n, z * w);
    CongMod(n, r * w);
    CongTimes(n, key, u2, r * w);
    assert key * u2 == u2 * key;
    CongAdd(n, u1, z * w, u2 * key, key * (r * w));
    Distribute(w, z, r, key);
    CongMod(n, u1 + u2 * key);
    CongTrans(n, VerifyPoint(c, key, z, r, s), u1 + u2 * key, w * (z + r * key));
  }

  lemma Distribute(w: int, z: int, r: int, key: int)
    ensures z * w + key * (r * w) == w * (z + r * key)
  {
    assert key * (r * w) == w * (r * key);
    assert w * (z + r * key) == w * z + w * (r * key);
  }

  /** p is the point of verification exactly when s p = z + r key. */
  lemma PointEquation(c: Curve, key: nat, z: nat, r: nat, s: nat, p: nat)
    requires Prime(c.n) && InRange(c, s) && p < c.n
    ensures VerifyPoint(c, key, z, r, s) == p <==> Cong(c.n, z + r * key, s * p)
  {
    var n, q, w := c.n, VerifyPoint(c, key, z, r, s), Inv(c.n, s);
    VerifyPointIs(c, key, z, r, s);
    InvTimes(n, s);
    Modular.Shift(n, s, w, z + r * key, p);
    if q != p && Cong(n, w * (z + r * key), p) {
      CongTrans(n, q, w * (z + r * key), p);
      CongEqual(n, q, p);
    }
    CongSym(n, q, w * (z + r * key));
  }

  /** A candidate recovers to k exactly when s p - z = r k. */
  lemma CandidateEquation(c: Curve, z: nat, r: nat, s: nat, p: nat, k: nat)
    requires Prime(c.n) && InRange(c, r) && k < c.n
    ensures Candidate(c, z, r, s, p) == k <==> Cong(c.n, s * p - z, r * k)
  {
    InvTimes(c.n, r);
    ShiftMod(c.n, r, Inv(c.n, r), s * p - z, k);
  }

  lemma ShiftMod(n: nat, a: nat, inverse: nat, e: int, k: nat)
    requires Cong(n, a * inverse, 1) && k < n
    ensures (inverse * e) % n == k <==> Cong(n, e, a * k)
  {
    Modular.Shift(n, a, inverse, e, k);
    CongIffMod(n, inverse * e, k);
    SmallMod(k, n);
  }

  lemma MoveAcross(n: nat, a: int, z: int, b: int)
    ensures Cong(n, a - z, b) <==> Cong(n, z + b, a)
  {
    CongRefl(n, z);
    CongRefl(n, -z);
    if Cong(n, a - z, b) {
      CongAdd(n, a - z, b, z, z);
      CongSym(n, a, b + z);
    }
    if Cong(n, z + b, a) {
      CongAdd(n, z + b, a, -z, -z);
      CongSym(n, b, a - z);
    }
  }

  /** Recovery and verification are one equation: a candidate recovers the key just when verification meets it. */
  lemma CandidateIsVerifyPoint(c: Curve, key: nat, z: nat, r: nat, s: nat, p: nat)
    requires Prime(c.n) && InRange(c, r) && InRange(c, s) && key < c.n && p < c.n
    ensures Candidate(c, z, r, s, p) == key <==> VerifyPoint(c, key, z, r, s) == p
  {
    CandidateEquation(c, z, r, s, p, key);
    PointEquation(c, key, z, r, s, p);
    MoveAcross(c.n, s * p, z, r * key);
  }

  lemma NegatedProduct(n: nat, s: int, p: int)
    ensures Cong(n, (n - s) * (n - p), s * p)
  {
    assert (n - s) * (n - p) - s * p == n * (n - p - s) by {
      assert (n - s) * (n - p) == n * (n - p) - s * (n - p);
      assert s * (n - p) == s * n - s * p;
      assert n * (n - p - s) == n * (n - p) - n * s;
    }
    CongBy(n, (n - s) * (n - p), s * p, n - p - s);
  }

  lemma ZeroProduct(n: nat, s: int)
    ensures Cong(n, (n - s) * 0, s * 0)
  {
    CongRefl(n, 0);
  }

  /** Negating s negates the point. */
  lemma PointNegates(c: Curve, key: nat, z: nat, r: nat, s: nat)
    requires Prime(c.n) && InRange(c, s)
    ensures
      var p := VerifyPoint(c, key, z, r, s);
      VerifyPoint(c, key, z, r, c.n - s) == if p == 0 then 0 else c.n - p
  {
    var n, p := c.n, VerifyPoint(c, key, z, r, s);
    var p' := if p == 0 then 0 else n - p;
    PointEquation(c, key, z, r, s, p);
    if p == 0 { ZeroProduct(n, s); } else { NegatedProduct(n, s, p); }
    CongSym(n, (n - s) * p', s * p);
    CongTrans(n, z + r * key, s * p, (n - s) * p');
    PointEquation(c, key, z, r, n - s, p');
  }

  /** (r, s) verifies just when (r, N - s) does. */
  lemma NegatedVerifies(c: Curve, key: nat, z: nat, r: nat, s: nat)
    requires c.Valid() && InRange(c, s)
    ensures Verifies(c, key, z, r, s) <==> Verifies(c, key, z, r, c.n - s)
  {
    PointNegates(c, key, z, r, s);
    var p := VerifyPoint(c, key, z, r, s);
    if p != 0 {
      assert c.IsPoint(p) && c.IsPoint(c.n - p);
    }
  }

  /** What a signer with nonce k produces verifies, and verification meets the nonce's point. */
  lemma RawVerifies(c: Curve, key: nat, z: nat, k: nat)
    requires c.Valid() && InRange(c, k)
    ensures RawR(c, k) != 0 && RawS(c, key, z, k) != 0 ==>
      && Verifies(c, key, z, RawR(c, k), RawS(c, key, z, k))
      && VerifyPoint(c, key, z, RawR(c, k), RawS(c, key, z, k)) == k
  {
    if RawS(c, key, z, k) == 0 {
      return;
    }
    var n, r, s, w := c.n, RawR(c, k), RawS(c, key, z, k), Inv(c.n, k);
    var e := z + r * key;
    InvTimes(n, k);
    CongMod(n, w * e);
    CongSym(n, s, w * e);
    Modular.Shift(n, k, w, e, s);
    assert k * s == s * k;
    PointEquation(c, key, z, r, s, k);
  }

  lemma SmallMod(a: nat, n: nat)
    requires a < n
    ensures a % n == a
  {
  }

  lemma RecoverIs(c: Curve, z: nat, r: nat, s: nat, v: nat, key: nat)
    requires c.n > 0 && InRange(c, r) && InRange(c, s) && v <= 1 && key > 0
    ensures
      var p := c.lift(r, v == 1);
      Recover(c, z, r, s, v) == Some(key) <==> p.Some? && Candidate(c, z, r, s, p.value) == key
  {
    assert v / 2 == 0 && (v % 2 == 1) == (v == 1);
    assert r + 0 * c.n == r;
  }

  /**
    Recovery with V in {0, 1} gives the key exactly when the signature verifies under it at a point
    whose x-coordinate is r itself, not r plus N, and whose parity is V.
  */
  lemma RecoverExact(c: Curve, key: nat, z: nat, r: nat, s: nat, v: nat)
    requires c.Valid() && InRange(c, key) && InRange(c, r) && InRange(c, s) && v <= 1
    ensures
      var p := VerifyPoint(c, key, z, r, s);
      Recover(c, z, r, s, v) == Some(key) <==>
        Verifies(c, key, z, r, s) && c.xOf(p) < c.n && c.odd(p) == (v == 1)
  {
    var p := VerifyPoint(c, key, z, r, s);
    var lifted := c.lift(r, v == 1);
    RecoverIs(c, z, r, s, v, key);
    if lifted.Some? {
      assert c.IsPoint(lifted.value) && c.xOf(lifted.value) == r && c.odd(lifted.value) == (v == 1);
      SmallMod(r, c.n);
      CandidateIsVerifyPoint(c, key, z, r, s, lifted.value);
    }
    if Verifies(c, key, z, r, s) && c.xOf(p) < c.n && c.odd(p) == (v == 1) {
      SmallMod(c.xOf(p), c.n);
      assert lifted == Some(p);
    }
  }

  /** The other candidate, of opposite parity, is the identity exactly when 2z + r key = 0. */
  lemma OtherIsIdentity(c: Curve, key: nat, z: nat, r: nat, s: nat)
    requires c.Valid() && InRange(c, r) && InRange(c, s) && VerifyPoint(c, key, z, r, s) != 0
    ensures
      var p := VerifyPoint(c, key, z, r, s);
      Candidate(c, z, r, s, c.n - p) == 0 <==> (2 * z + r * key) % c.n == 0
  {
    var n, p := c.n, VerifyPoint(c, key, z, r, s);
    PointEquation(c, key, z, r, s, p);
    CandidateEquation(c, z, r, s, n - p, 0);
    OppositeSum(n, s, p, z, r * key);
    CongIffMod(n, 2 * z + r * key, 0);
    assert r * 0 == 0;
  }

  lemma OppositeSum(n: nat, s: int, p: int, z: int, e: int)
    requires Cong(n, z + e, s * p)
    ensures Cong(n, s * (n - p) - z, 0) <==> Cong(n, 2 * z + e, 0)
  {
    var a, b := s * (n - p) - z, 2 * z + e;
    assert s * (n - p) == n * s - s * p;
    CongBy(n, n * s, 0, s);
    CongRefl(n, z);
    CongAdd(n, z + e, s * p, z, z);             // b = s p + z
    assert a + (s * p + z) == n * s;
    CongRefl(n, a);
    CongAdd(n, a, a, b, s * p + z);             // a + b = n s = 0
    CongTrans(n, a + b, n * s, 0);
    if Cong(n, a, 0) {
      Opposite(n, a, b);
    }
    if Cong(n, b, 0) {
      Opposite(n, b, a);
    }
  }

  lemma Opposite(n: nat, a: int, b: int)
    requires Cong(n, a + b, 0) && Cong(n, a, 0)
    ensures Cong(n, b, 0)
  {
    CongTimes(n, -1, a, 0);
    CongAdd(n, a + b, 0, -1 * a, -1 * 0);
  }

  // ---------------------------------------------------------------- Sign

  function Abs(x: int): nat {
    if x < 0 then -x else x
  }

  /** The low-s rule of EIP-2: s, or N - s when s is in the upper half. */
  function Lowered(c: Curve, s: int): int {
    if s > c.n / 2 then c.n - s else s
  }

  function Layout(r: nat, s: nat, v: byte): (sig: Bytes)
    ensures |sig| == LENGTH
  {
    Encode(r, 32) + Encode(s, 32) + [v]
  }

  /** `Panic` is FillBytes on a number of more than 32 bytes. */
  datatype Outcome = Signature(sig: Bytes) | Error | Panic

  /** The V of the first recovery that gives the key; a recovery that fails ends the search. */
  function Search(first: Option<nat>, second: Option<nat>, key: nat): Option<byte> {
    if first.None? then None
    else if first.value == key then Some(0)
    else if second == Some(key) then Some(1)
    else None
  }

  /** What Sign returns for the numbers R and S of the KMS reply, whatever they are. */
  function Signed(c: Curve, key: nat, z: nat, r: int, s: int): Outcome
    requires c.n > 0
  {
    var a, b := Abs(r), Abs(Lowered(c, s));
    if a >= Values(32) || b >= Values(32) then Panic
    else
      var v := Search(Ecrecover(c, z, Layout(a, b, 0)), Ecrecover(c, z, Layout(a, b, 1)), key);
      if v.Some? then Signature(Layout(a, b, v.value)) else Error
  }

  /** The reply of the KMS Sign call: an error, bytes that are no DER signature, or its two numbers. */
  datatype Reply = Unavailable | Garbled | Der(r: int, s: int)

  // Writes |x| big-endian into buf[lo..hi], like big.Int.FillBytes when it fits.
  method FillBytes(x: int, buf: array<byte>, lo: nat, hi: nat)
    requires lo <= hi <= buf.Length && Abs(x) < Values(hi - lo)
    modifies buf
    ensures buf[lo..hi] == Encode(Abs(x), hi - lo)
    ensures buf[..lo] == old(buf[..lo]) && buf[hi..] == old(buf[hi..])
  {
    var bytes := Encode(Abs(x), hi - lo);
    forall i | lo <= i < hi {
      buf[i] := bytes[i - lo];
    }
  }

  lemma LaidOut(sig: Bytes, r: nat, s: nat)
    requires |sig| == LENGTH && sig[..32] == Encode(r, 32) && sig[32..64] == Encode(s, 32)
    ensures sig == Layout(r, s, sig[64])
  {
    assert sig == sig[..32] + sig[32..64] + sig[64..];
    assert sig[64..] == [sig[64]];
  }

  class KmsSender {
    const curve: Curve
    const publicKey: nat

    constructor (curve: Curve, publicKey: nat)
      ensures this.curve == curve && this.publicKey == publicKey
    {
      this.curve, this.publicKey := curve, publicKey;
    }

    /** R and S in their places, V still 0. */
    method Fill(r: int, s: int) returns (sigRSV: array<byte>)
      requires Abs(r) < Values(32) && Abs(s) < Values(32)
      ensures fresh(sigRSV) && sigRSV[..] == Layout(Abs(r), Abs(s), 0)
      ensures sigRSV[..32] == Encode(Abs(r), 32) && sigRSV[32..64] == Encode(Abs(s), 32)
    {
      sigRSV := new byte[LENGTH](_ => 0);
      assert sigRSV[64..] == [0];
      FillBytes(r, sigRSV, 0, 32);
      assert sigRSV[32..][32..] == sigRSV[64..];
      FillBytes(s, sigRSV, 32, 64);
      LaidOut(sigRSV[..], Abs(r), Abs(s));
    }

    method Sign(hash: Bytes, reply: Reply) returns (outcome: Outcome)
      requires curve.n > 0
      ensures outcome == if reply.Der? then Signed(curve, publicKey, Value(hash), reply.r, reply.s) else Error
    {
      if !reply.Der? {
        return Error;
      }
      var sigS := reply.s;
      if sigS > curve.n / 2 {
        sigS := curve.n - sigS;
      }
      if Abs(reply.r) >= Values(32) || Abs(sigS) >= Values(32) {
        return Panic;
      }
      var sigRSV := Fill(reply.r, sigS);
      var recPub := Ecrecover(curve, Value(hash), sigRSV[..]);
      if recPub.None? {
        return Error;
      }
      if recPub.value == publicKey {
        return Signature(sigRSV[..]);
      }
      sigRSV[64] := 1;
      LaidOut(sigRSV[..], Abs(reply.r), Abs(sigS));
      recPub := Ecrecover(curve, Value(hash), sigRSV[..]);
      if recPub.None? {
        return Error;
      }
      if recPub.value == publicKey {
        return Signature(sigRSV[..]);
      }
      return Error;
    }
  }

  // ---------------------------------------------------------------- what Sign achieves

  lemma LayoutDecodes(r: nat, s: nat, v: byte)
    requires r < Values(32) && s < Values(32)
    ensures Value(Layout(r, s, v)[..32]) == r && Value(Layout(r, s, v)[32..64]) == s && Layout(r, s, v)[64] == v
  {
    assert Layout(r, s, v)[..32] == Encode(r, 32) && Layout(r, s, v)[32..64] == Encode(s, 32);
    DecodeEncode(r, 32);
    DecodeEncode(s, 32);
  }

  /** Correction brings s into the lower half, is done once for all, and does not change what verifies. */
  lemma LowSForm(c: Curve, key: nat, z: nat, r: nat, s: nat)
    requires c.Valid() && InRange(c, s)
    ensures 1 <= Lowered(c, s) <= c.n / 2
    ensures Lowered(c, s) == s || Lowered(c, s) == c.n - s
    ensures Lowered(c, Lowered(c, s)) == Lowered(c, s)
    ensures Verifies(c, key, z, r, Lowered(c, s)) <==> Verifies(c, key, z, r, s)
  {
    assert c.n % 2 != 0;
    NegatedVerifies(c, key, z, r, s);
  }

  /** Whether V = 0 is decided at all when V = 1 is right: the other candidate must not be the identity. */
  lemma WrongFirst(c: Curve, key: nat, z: nat, r: nat, s: nat)
    requires c.Valid() && InRange(c, key) && Verifies(c, key, z, r, s)
    requires
      var p := VerifyPoint(c, key, z, r, s);
      c.xOf(p) < c.n && c.odd(p)
    ensures Recover(c, z, r, s, 0).None? <==> (2 * z + r * key) % c.n == 0
  {
    var p := VerifyPoint(c, key, z, r, s);
    SmallMod(c.xOf(p), c.n);
    assert c.IsPoint(p) && c.IsPoint(c.n - p);
    assert c.xOf(c.n - p) == r && !c.odd(c.n - p);
    assert c.lift(r, false) == Some(c.n - p);
    OtherIsIdentity(c, key, z, r, s);
    assert r + 0 * c.n == r;
  }

  lemma EcrecoverLayout(c: Curve, z: nat, a: nat, b: nat, v: byte)
    requires c.n > 0 && a < Values(32) && b < Values(32)
    ensures Ecrecover(c, z, Layout(a, b, v)) == Recover(c, z, a, b, v as nat)
  {
    LayoutDecodes(a, b, v);
  }

  lemma SearchExact(first: Option<nat>, second: Option<nat>, key: nat, good: bool, odd: bool, identity: bool)
    requires first == Some(key) <==> good && !odd
    requires second == Some(key) <==> good && odd
    requires good && odd ==> (first.None? <==> identity)
    ensures Search(first, second, key) == if good && (odd ==> !identity) then Some(if odd then 1 else 0) else None
  {
  }

  /** The signature stands for the key at a point recovery can name with V in {0, 1}. */
  predicate Recoverable(c: Curve, key: nat, z: nat, r: nat, s: nat)
    requires c.n > 0
  {
    Verifies(c, key, z, r, s) && c.xOf(VerifyPoint(c, key, z, r, s)) < c.n
  }

  /** V = 1 is right, and V = 0 stands for the identity. */
  predicate MeetsIdentity(c: Curve, key: nat, z: nat, r: nat, s: nat)
    requires c.n > 0
  {
    c.odd(VerifyPoint(c, key, z, r, s)) && (2 * z + r * key) % c.n == 0
  }

  lemma RecoversExact(c: Curve, key: nat, z: nat, r: nat, s: nat)
    requires c.Valid() && InRange(c, key)
    ensures
      var odd := c.odd(VerifyPoint(c, key, z, r, s));
      Search(Recover(c, z, r, s, 0), Recover(c, z, r, s, 1), key)
      == if Recoverable(c, key, z, r, s) && !MeetsIdentity(c, key, z, r, s) then Some(if odd then 1 else 0) else None
  {
    if InRange(c, r) && InRange(c, s) {
      var odd := c.odd(VerifyPoint(c, key, z, r, s));
      var good, identity := Recoverable(c, key, z, r, s), (2 * z + r * key) % c.n == 0;
      RecoverExact(c, key, z, r, s, 0);
      RecoverExact(c, key, z, r, s, 1);
      if good && odd {
        WrongFirst(c, key, z, r, s);
      }
      SearchExact(Recover(c, z, r, s, 0), Recover(c, z, r, s, 1), key, good, odd, identity);
    }
  }

  /**
    Sign succeeds exactly when the corrected signature verifies, at a point with x below N, and V = 0
    does not meet the identity where V = 1 is right; V is then the parity of the point.
  */
  lemma SignExact(c: Curve, key: nat, z: nat, r: int, s: int)
    requires c.Valid() && InRange(c, key)
    ensures
      var a, b := Abs(r), Abs(Lowered(c, s));
      var v := if c.odd(VerifyPoint(c, key, z, a, b)) then 1 else 0;
      if Recoverable(c, key, z, a, b) && !MeetsIdentity(c, key, z, a, b) then
        Signed(c, key, z, r, s) == Signature(Layout(a, b, v))
      else !Signed(c, key, z, r, s).Signature?
  {
    var a, b := Abs(r), Abs(Lowered(c, s));
    if a < Values(32) && b < Values(32) {
      EcrecoverLayout(c, z, a, b, 0);
      EcrecoverLayout(c, z, a, b, 1);
      RecoversExact(c, key, z, a, b);
    }
  }

  lemma LowExactly(c: Curve, s: int)
    requires c.Valid()
    ensures Abs(Lowered(c, s)) <= c.n / 2 <==> 0 - c.n / 2 <= s <= c.n + c.n / 2
    ensures InRange(c, s) ==> Abs(Lowered(c, s)) <= c.n / 2
  {
    assert c.n % 2 != 0;
  }

  /**
    A returned signature has 65 bytes and recovers to the sender's key. Its s is low for every reply in range,
    and for other replies exactly from -N/2 to N + N/2.
  */
  lemma SignSound(c: Curve, key: nat, z: nat, r: int, s: int)
    requires c.Valid() && InRange(c, key)
    ensures Signed(c, key, z, r, s).Signature? ==>
      var sig := Signed(c, key, z, r, s).sig;
      && |sig| == LENGTH && sig[64] <= 1 && Ecrecover(c, z, sig) == Some(key)
      && Value(sig[..32]) == Abs(r) && Value(sig[32..64]) == Abs(Lowered(c, s))
      && Verifies(c, key, z, Value(sig[..32]), Value(sig[32..64]))
      && 1 <= Value(sig[32..64]) && (InRange(c, s) ==> Value(sig[32..64]) <= c.n / 2)
      && (Value(sig[32..64]) <= c.n / 2 <==> 0 - c.n / 2 <= s <= c.n + c.n / 2)
  {
    SignExact(c, key, z, r, s);
    LowExactly(c, s);
    var a, b := Abs(r), Abs(Lowered(c, s));
    if Signed(c, key, z, r, s).Signature? {
      LayoutDecodes(a, b, 0);
      LayoutDecodes(a, b, 1);
    }
  }

  lemma RecoverableSigned(c: Curve, key: nat, z: nat, r: nat, s: nat)
    requires c.Valid() && InRange(c, s)
    ensures Recoverable(c, key, z, r, Lowered(c, s)) <==> Recoverable(c, key, z, r, s)
  {
    LowSForm(c, key, z, r, s);
    PointNegates(c, key, z, r, s);
    var p := VerifyPoint(c, key, z, r, s);
    if p != 0 {
      assert c.IsPoint(p) && c.IsPoint(c.n - p);
    }
  }

  lemma LoweredPoint(c: Curve, key: nat, z: nat, r: nat, s: nat)
    requires c.Valid() && InRange(c, s) && VerifyPoint(c, key, z, r, s) != 0
    ensures
      var p := VerifyPoint(c, key, z, r, s);
      VerifyPoint(c, key, z, r, Lowered(c, s)) == if s > c.n / 2 then c.n - p else p
  {
    PointNegates(c, key, z, r, s);
  }

  lemma NoPanic(c: Curve, key: nat, z: nat, r: nat, s: nat)
    requires c.Valid() && InRange(c, r) && InRange(c, s)
    ensures !Signed(c, key, z, r, s).Panic?
  {
  }

  /**
    For a signature the KMS made with nonce k: the returned bytes hold r and low s, and Sign fails only when
    the nonce's point has x >= N, or V = 1 is right and 2z + r key = 0 makes V = 0 fail first.
  */
  lemma SignCompletes(c: Curve, key: nat, z: nat, k: nat)
    requires c.Valid() && InRange(c, key) && InRange(c, k)
    ensures RawR(c, k) != 0 && RawS(c, key, z, k) != 0 ==>
      var r, s := RawR(c, k), RawS(c, key, z, k);
      var odd := c.odd(if s > c.n / 2 then c.n - k else k);
      if c.xOf(k) < c.n && (odd ==> (2 * z + r * key) % c.n != 0) then
        Signed(c, key, z, r, s) == Signature(Layout(r, Lowered(c, s), if odd then 1 else 0))
      else Signed(c, key, z, r, s) == Error
  {
    var r, s := RawR(c, k), RawS(c, key, z, k);
    if r != 0 && s != 0 {
      RawVerifies(c, key, z, k);
      LoweredPoint(c, key, z, r, s);
      RecoverableSigned(c, key, z, r, s);
      NoPanic(c, key, z, r, s);
      SignExact(c, key, z, r, s);
    }
  }

  // ---------------------------------------------------------------- the failing family is not empty

  /** The digest and the key under which (x of p, s) verifies at p while the opposite point stands for the identity. */
  function LostDigest(c: Curve, p: nat, s: nat): nat
    requires c.n > p
  {
    (s * (c.n - p)) % c.n
  }

  function LostKey(c: Curve, p: nat, s: nat): nat
    requires c.n > 0
  {
    (Inv(c.n, c.xOf(p)) * (2 * (s * p))) % c.n
  }

  lemma Cancels(n: nat, a: nat, x: int)
    requires Prime(n) && 0 < a < n && Cong(n, a * x, 0)
    ensures Cong(n, x, 0)
  {
    var inverse := Inv(n, a);
    InvTimes(n, a);
    Cancel(n, a, inverse, x);
    CongTimes(n, inverse, a * x, 0);
    CongSym(n, inverse * (a * x), x);
    CongTrans(n, x, inverse * (a * x), 0);
  }

  lemma LostDigestIs(c: Curve, p: nat, s: nat)
    requires c.Valid() && c.IsPoint(p)
    ensures Cong(c.n, LostDigest(c, p, s), -(s * p))
  {
    assert s * (c.n - p) == s * c.n - s * p;
    CongMod(c.n, s * (c.n - p));
    CongBy(c.n, s * (c.n - p), -(s * p), s);
    CongTrans(c.n, LostDigest(c, p, s), s * (c.n - p), -(s * p));
  }

  lemma LostKeyIs(c: Curve, p: nat, s: nat)
    requires c.Valid() && c.IsPoint(p) && InRange(c, c.xOf(p)) && InRange(c, s)
    ensures Cong(c.n, c.xOf(p) * LostKey(c, p, s), 2 * (s * p)) && InRange(c, LostKey(c, p, s))
  {
    var n, r, key, e := c.n, c.xOf(p), LostKey(c, p, s), 2 * (s * p);
    InvTimes(n, r);
    ShiftMod(n, r, Inv(n, r), e, key);
    CongSym(n, e, r * key);
    if key == 0 {
      assert r * key == 0;
      Cancels(n, 2, s * p);
      Cancels(n, s, p);
      CongEqual(n, p, 0);
    }
  }

  lemma LostSums(n: nat, z: int, rk: int, sp: int)
    requires Cong(n, z, -sp) && Cong(n, rk, 2 * sp)
    ensures Cong(n, z + rk, sp) && Cong(n, 2 * z + rk, 0)
  {
    CongAdd(n, z, -sp, rk, 2 * sp);
    CongAdd(n, z, -sp, z + rk, sp);
  }

  /**
    On every curve: any point of odd parity with x below N, and any low s, give a digest and a key for which
    (x, s) is a valid signature of that key, and Sign gives up on it: V = 0 meets the identity, and V = 1,
    which is right, is not tried.
  */
  lemma GivesUpEarly(c: Curve, p: nat, s: nat)
    requires c.Valid() && c.IsPoint(p) && c.odd(p) && 0 < c.xOf(p) < c.n && 1 <= s <= c.n / 2
    ensures
      var r, z, key := c.xOf(p), LostDigest(c, p, s), LostKey(c, p, s);
      && InRange(c, key) && Verifies(c, key, z, r, s)
      && Signed(c, key, z, r, s) == Error && Recover(c, z, r, s, 1) == Some(key)
  {
    var r, z, key := c.xOf(p), LostDigest(c, p, s), LostKey(c, p, s);
    LostDigestIs(c, p, s);
    LostKeyIs(c, p, s);
    LostSums(c.n, z, r * key, s * p);
    PointEquation(c, key, z, r, s, p);
    SmallMod(r, c.n);
    CongIffMod(c.n, 2 * z + r * key, 0);
    ErrorIfIdentity(c, key, z, r, s);
  }

  lemma ErrorIfIdentity(c: Curve, key: nat, z: nat, r: nat, s: nat)
    requires c.Valid() && InRange(c, key) && s <= c.n / 2
    requires Recoverable(c, key, z, r, s) && MeetsIdentity(c, key, z, r, s)
    ensures Signed(c, key, z, r, s) == Error && Recover(c, z, r, s, 1) == Some(key)
  {
    SignExact(c, key, z, r, s);
    RecoverExact(c, key, z, r, s, 1);
    NoPanic(c, key, z, r, s);
  }
}
