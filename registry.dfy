/** The registry of loaded models and its active index, which the "switch
    model" button advances cyclically. */
module Registry {

  /** The model files loaded at start-up, in registry order. */
  const OBJ_MODELS: seq<string> := [
    "media/gas_mask/gas_mask.obj",
    "media/plague_doctor_mask_bloody/plague_doctor_mask_bloody.obj"
  ]

  /** The active index a fresh widget starts with. */
  const INITIAL_INDEX: nat := 0

  /** The index after one switch: the next model, wrapping from the last to
      the first. */
  function Advance(i: nat, count: nat): (j: nat)
    requires count > 0
    ensures j < count
    ensures i + 1 < count ==> j == i + 1
    ensures i + 1 == count ==> j == 0
  {
    (i + 1) % count
  }

  /** The index after `n` switches. */
  function AdvanceN(i: nat, n: nat, count: nat): (j: nat)
    requires count > 0
    ensures n > 0 ==> j < count
  {
    if n == 0 then i else Advance(AdvanceN(i, n - 1, count), count)
  }

  /** `n` switches from a valid index move it forward by `n` whole steps:
      the start plus `n` is the new index plus some number `q` of full
      turns of the registry. */
  lemma {:induction false} AdvanceNTurns(i: nat, n: nat, count: nat) returns (q: nat)
    requires count > 0 && i < count
    ensures i + n == q * count + AdvanceN(i, n, count)
  {
    if n == 0 {
      q := 0;
    } else {
      var q0 := AdvanceNTurns(i, n - 1, count);
      var j0 := AdvanceN(i, n - 1, count);
      assert j0 < count by {
        if n - 1 == 0 { assert j0 == i; }
      }
      if j0 + 1 < count {
        q := q0;
      } else {
        q := q0 + 1;
        assert q * count == q0 * count + count;
      }
    }
  }

  /** `n` switches from a valid index land on the start plus `n`, modulo the
      registry size. */
  lemma AdvanceNIsShift(i: nat, n: nat, count: nat)
    requires count > 0 && i < count
    ensures AdvanceN(i, n, count) == (i + n) % count
  {
    var q := AdvanceNTurns(i, n, count);
    if n == 0 {
      ModOfMultiplePlus(0, count, i);
    } else {
      ModOfMultiplePlus(q, count, AdvanceN(i, n, count));
    }
  }

  lemma MulAtLeast(d: int, count: int)
    requires d >= 1 && count > 0
    ensures d * count >= count
  {
    var e := d - 1;
    assert d * count == e * count + count;
  }

  /** The remainder of `q * count + r` for `r` below `count` is `r`. */
  lemma ModOfMultiplePlus(q: nat, count: nat, r: nat)
    requires count > 0 && r < count
    ensures (q * count + r) % count == r
  {
    var x := q * count + r;
    var q', r' := x / count, x % count;
    assert x == q' * count + r';
    assert (q - q') * count == r' - r;
    if q > q' {
      MulAtLeast(q - q', count);
    } else if q < q' {
      MulAtLeast(q' - q, count);
    }
  }

  /** Switching `n` times returns to the starting model exactly when `n`
      is a multiple of the number of models. */
  lemma CycleReturnsIff(i: nat, n: nat, count: nat)
    requires count > 0 && i < count
    ensures AdvanceN(i, n, count) == i <==> n % count == 0
  {
    AdvanceNIsShift(i, n, count);
    ShiftReturnsIff(i, n, count);
  }

  lemma ShiftReturnsIff(i: nat, n: nat, count: nat)
    requires count > 0 && i < count
    ensures (i + n) % count == i <==> n % count == 0
  {
    var q, r := n / count, n % count;
    var base := q * count;
    assert n == base + r;
    if i + r < count {
      ModOfMultiplePlus(q, count, i + r);
    } else {
      var q1 := q + 1;
      assert q1 * count == base + count;
      ModOfMultiplePlus(q1, count, i + r - count);
    }
  }

  /** With a single model, switching never changes the active one. */
  lemma SingleModelFixed(n: nat)
    ensures AdvanceN(0, n, 1) == 0
  {
    CycleReturnsIff(0, n, 1);
  }

  /** With the two configured models: the first switch selects the second
      model and the next one wraps back to the first. */
  lemma TwoModelsWrap()
    ensures AdvanceN(INITIAL_INDEX, 1, |OBJ_MODELS|) == 1
    ensures AdvanceN(INITIAL_INDEX, 2, |OBJ_MODELS|) == INITIAL_INDEX
  {
  }
}
