/** Small building blocks shared by every part of the model. */
module Common {

  datatype Option<T> = None | Some(value: T)

  /** Positions of the true entries of a flag sequence, in increasing order.
      Every "keep the items whose flag is set" loop of the system is specified
      through these indices. */
  function TrueIndices(flags: seq<bool>): seq<nat>
  {
    if |flags| == 0 then []
    else TrueIndices(flags[..|flags| - 1]) + (if flags[|flags| - 1] then [|flags| - 1] else [])
  }

  /** The indices are in range, point at true flags, increase strictly and
      miss no true flag. */
  lemma TrueIndicesSpec(flags: seq<bool>)
    ensures forall j :: 0 <= j < |TrueIndices(flags)| ==>
              TrueIndices(flags)[j] < |flags| && flags[TrueIndices(flags)[j]]
    ensures forall j, k :: 0 <= j < k < |TrueIndices(flags)| ==>
              TrueIndices(flags)[j] < TrueIndices(flags)[k]
    ensures forall i :: 0 <= i < |flags| && flags[i] ==> i in TrueIndices(flags)
  {
    TrueIndicesSound(flags);
    TrueIndicesComplete(flags);
  }

  /** Every index points at a true flag, and the indices increase strictly. */
  lemma {:induction false} TrueIndicesSound(flags: seq<bool>)
    ensures forall j :: 0 <= j < |TrueIndices(flags)| ==>
              TrueIndices(flags)[j] < |flags| && flags[TrueIndices(flags)[j]]
    ensures forall j, k :: 0 <= j < k < |TrueIndices(flags)| ==>
              TrueIndices(flags)[j] < TrueIndices(flags)[k]
  {
    if |flags| > 0 {
      var init := flags[..|flags| - 1];
      TrueIndicesSound(init);
      var t0 := TrueIndices(init);
      assert TrueIndices(flags) == t0 + (if flags[|flags| - 1] then [|flags| - 1] else []);
      assert forall j :: 0 <= j < |t0| ==> init[t0[j]] == flags[t0[j]];
    }
  }

  /** Every true flag has its index listed. */
  lemma {:induction false} TrueIndicesComplete(flags: seq<bool>)
    ensures forall i :: 0 <= i < |flags| && flags[i] ==> i in TrueIndices(flags)
  {
    if |flags| > 0 {
      var init := flags[..|flags| - 1];
      TrueIndicesComplete(init);
      assert TrueIndices(flags) == TrueIndices(init) + (if flags[|flags| - 1] then [|flags| - 1] else []);
      assert forall i :: 0 <= i < |init| ==> init[i] == flags[i];
    }
  }

  /** A prefix one longer adds at most its last position. */
  lemma TrueIndicesSnoc(flags: seq<bool>, i: nat)
    requires i < |flags|
    ensures TrueIndices(flags[..i + 1]) == TrueIndices(flags[..i]) + (if flags[i] then [i] else [])
  {
    assert flags[..i + 1][..i] == flags[..i];
  }

  /** There are at most as many indices as flags, and as many exactly when
      every flag is set. */
  lemma {:induction false} TrueIndicesCount(flags: seq<bool>)
    ensures |TrueIndices(flags)| <= |flags|
    ensures |TrueIndices(flags)| == |flags| <==> forall i :: 0 <= i < |flags| ==> flags[i]
  {
    if |flags| > 0 {
      var init := flags[..|flags| - 1];
      TrueIndicesCount(init);
      assert forall i :: 0 <= i < |init| ==> init[i] == flags[i];
    }
  }

  /** The character of a decimal digit. */
  function Digit(d: nat): char
    requires d < 10
  {
    (48 + d) as char
  }

  /** The text `sprintf("%d", n)` writes for a non-negative n. */
  function DecimalString(n: nat): (s: string)
    ensures |s| >= 1
  {
    if n < 10 then [Digit(n)] else DecimalString(n / 10) + [Digit(n % 10)]
  }

  function Pow10(k: nat): nat
  {
    if k == 0 then 1 else 10 * Pow10(k - 1)
  }

  /** n has at most k decimal digits exactly when n < 10^k. */
  lemma {:induction false} DecimalStringLength(n: nat, k: nat)
    requires k >= 1
    ensures |DecimalString(n)| <= k <==> n < Pow10(k)
  {
    if n >= 10 {
      if k == 1 {
        DecimalStringLength(n / 10, 1);
      } else {
        DecimalStringLength(n / 10, k - 1);
      }
    } else if k > 1 {
      Pow10Positive(k - 1);
    }
  }

  lemma {:induction false} Pow10Positive(k: nat)
    ensures Pow10(k) >= 1
  {
    if k > 0 { Pow10Positive(k - 1); }
  }

  /** Distinct numbers have distinct decimal texts. */
  lemma {:induction false} DecimalStringInjective(m: nat, n: nat)
    ensures DecimalString(m) == DecimalString(n) ==> m == n
  {
    if DecimalString(m) == DecimalString(n) {
      if m < 10 && n < 10 {
        assert DecimalString(m)[0] == Digit(m);
      } else if m >= 10 && n >= 10 {
        var sm, sn := DecimalString(m), DecimalString(n);
        assert sm[|sm| - 1] == Digit(m % 10) && sn[|sn| - 1] == Digit(n % 10);
        assert sm[..|sm| - 1] == DecimalString(m / 10);
        assert sn[..|sn| - 1] == DecimalString(n / 10);
        DecimalStringInjective(m / 10, n / 10);
      }
    }
  }
}
