/** Fixed-width big-endian numbers: request ids and the halves of a signature. */
module BigEndian {
  import opened Types

  function Value(bytes: Bytes): nat {
    if bytes == [] then 0 else Value(bytes[..|bytes|-1]) * 256 + bytes[|bytes|-1] as nat
  }

  /** The number of values of `width` bytes. */
  function Values(width: nat): nat {
    if width == 0 then 1 else Values(width - 1) * 256
  }

  function Encode(value: nat, width: nat): (bytes: Bytes)
    ensures |bytes| == width
  {
    if width == 0 then [] else Encode(value / 256, width - 1) + [(value % 256) as byte]
  }

  lemma {:induction false} ValueFits(bytes: Bytes)
    ensures Value(bytes) < Values(|bytes|)
  {
    if bytes != [] {
      ValueFits(bytes[..|bytes|-1]);
    }
  }

  lemma {:induction false} DecodeEncode(value: nat, width: nat)
    requires value < Values(width)
    ensures Value(Encode(value, width)) == value
  {
    if width > 0 {
      DecodeEncode(value / 256, width - 1);
      assert Encode(value, width)[..width-1] == Encode(value / 256, width - 1);
    }
  }

  /** Comparison byte by byte, of two strings of one length. */
  predicate Below(a: Bytes, b: Bytes)
    requires |a| == |b|
  {
    a != [] && (Below(a[..|a|-1], b[..|b|-1]) || (a[..|a|-1] == b[..|b|-1] && a[|a|-1] < b[|b|-1]))
  }

  lemma {:induction false} BelowAtFirstDifference(a: Bytes, b: Bytes)
    requires |a| == |b|
    ensures Below(a, b) <==> exists i :: 0 <= i < |a| && a[..i] == b[..i] && a[i] < b[i]
  {
    if a != [] {
      var n, a0, b0 := |a| - 1, a[..|a|-1], b[..|b|-1];
      BelowAtFirstDifference(a0, b0);
      if Below(a0, b0) {
        var i :| 0 <= i < n && a0[..i] == b0[..i] && a0[i] < b0[i];
        assert a[..i] == a0[..i] && b[..i] == b0[..i];
      }
      if i :| 0 <= i < |a| && a[..i] == b[..i] && a[i] < b[i] {
        if i < n {
          assert a[..i] == a0[..i] && b[..i] == b0[..i];
        }
      }
    }
  }

  /** Strings of one length are ordered, and told apart, as their values are. */
  lemma {:induction false} ValueOrders(a: Bytes, b: Bytes)
    requires |a| == |b|
    ensures Value(a) == Value(b) <==> a == b
    ensures Value(a) < Value(b) <==> Below(a, b)
  {
    if a != [] {
      var n := |a| - 1;
      ValueOrders(a[..n], b[..n]);
      assert a == a[..n] + [a[n]] && b == b[..n] + [b[n]];
    }
  }
}
