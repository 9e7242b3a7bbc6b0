/** The cell-balancing control law of the slave module.
    The balancing vector is a uint16 whose bit i says that cell i is being
    discharged; a pass clears the bit of every discharging cell whose voltage
    has dropped below the target plus the hysteresis margin. The vector is
    modelled as a natural number below 2^16 and its bits are read by halving. */
module Balancing {

  /** An unsigned 16-bit quantity: a voltage in millivolts, a threshold, the
      balancing vector. */
  type U16 = x: int | 0 <= x < 0x1_0000

  /** The vector is a uint16, so at most this many cells can be balanced. */
  const MaxCells: nat := 16

  function Pow2(n: nat): (r: nat)
    ensures r > 0
  {
    if n == 0 then 1 else 2 * Pow2(n - 1)
  }

  /** Is bit i of v set, that is, is `v & (1 << i)` non-zero. */
  predicate HasBit(v: nat, i: nat)
  {
    if i == 0 then v % 2 == 1 else HasBit(v / 2, i - 1)
  }

  /** `v & ~(1 << j)`: v with bit j cleared. */
  function Clear(v: nat, j: nat): (r: nat)
  {
    if j == 0 then v - v % 2 else 2 * Clear(v / 2, j - 1) + v % 2
  }

  /** The hysteresis limit `targetVoltage + fuzzFactor`. Both operands are
      uint16 on a target whose int is 16 bits wide, so the sum is computed in
      unsigned int and wraps around modulo 2^16. */
  function Limit(target: U16, fuzz: U16): (r: U16)
  {
    (target + fuzz) % 0x1_0000
  }

  /** The vector after the first k iterations of the balancing loop. */
  function BalancePass(vector: U16, voltages: seq<U16>, limit: U16, k: nat): (r: U16)
    requires k <= |voltages|
  {
    if k == 0 then vector
    else
      var v := BalancePass(vector, voltages, limit, k - 1);
      if HasBit(v, k - 1) && voltages[k - 1] < limit then ClearStaysU16(v, k - 1); Clear(v, k - 1) else v
  }

  /** The vector after a complete pass over every cell. */
  function Balance(vector: U16, voltages: seq<U16>, limit: U16): (r: U16)
  {
    BalancePass(vector, voltages, limit, |voltages|)
  }

  /** Does a pass find at least one discharging cell to stop? */
  predicate ClearsSome(vector: U16, voltages: seq<U16>, limit: U16)
  {
    exists i :: 0 <= i < |voltages| && HasBit(vector, i) && voltages[i] < limit
  }

  /** `checkForBalancedCells`: walks the cells in order, clearing the bit of
      every discharging cell below the limit and raising the
      balancing-register-changed flag for each bit it clears. The vector and
      the flag are passed in and returned, as the firmware passes a pointer
      to the vector and updates a global flag. */
  method CheckForBalancedCells(vector: U16, voltages: seq<U16>, targetVoltage: U16, fuzzFactor: U16,
                               equiStatusChange: bool)
    returns (newVector: U16, newEquiStatusChange: bool)
    requires |voltages| <= MaxCells
    ensures newVector == Balance(vector, voltages, Limit(targetVoltage, fuzzFactor))
    ensures newEquiStatusChange ==
      (equiStatusChange || ClearsSome(vector, voltages, Limit(targetVoltage, fuzzFactor)))
  {
    var limit := Limit(targetVoltage, fuzzFactor);
    newVector, newEquiStatusChange := vector, equiStatusChange;
    for i := 0 to |voltages|
      invariant newVector == BalancePass(vector, voltages, limit, i)
      invariant newEquiStatusChange ==
        (equiStatusChange || exists j :: 0 <= j < i && HasBit(vector, j) && voltages[j] < limit)
    {
      BalancePassBit(vector, voltages, limit, i, i);
      if HasBit(newVector, i) && voltages[i] < limit {
        ClearStaysU16(newVector, i);
        newVector := Clear(newVector, i);
        newEquiStatusChange := true;
      }
    }
  }

  /** Clearing a bit never makes a number larger. */
  lemma {:induction false} ClearStaysU16(v: nat, j: nat)
    ensures Clear(v, j) <= v
  {
    if j > 0 {
      ClearStaysU16(v / 2, j - 1);
    }
  }

  /** Clearing bit j clears that bit and leaves every other bit as it was. */
  lemma {:induction false} ClearBit(v: nat, j: nat, i: nat)
    ensures HasBit(Clear(v, j), i) == (HasBit(v, i) && i != j)
  {
    if i > 0 && j > 0 {
      assert Clear(v, j) / 2 == Clear(v / 2, j - 1);
      ClearBit(v / 2, j - 1, i - 1);
    } else if i > 0 {
      assert Clear(v, j) / 2 == v / 2;
    }
  }

  /** Two numbers below 2^w that agree on their w low bits are equal. */
  lemma {:induction false} BitsEqualBelow(a: nat, b: nat, w: nat)
    requires a < Pow2(w) && b < Pow2(w)
    requires forall i :: 0 <= i < w ==> HasBit(a, i) == HasBit(b, i)
    ensures a == b
  {
    if w > 0 {
      assert HasBit(a, 0) == HasBit(b, 0);
      forall i | 0 <= i < w - 1 ensures HasBit(a / 2, i) == HasBit(b / 2, i) {
        assert HasBit(a, i + 1) == HasBit(b, i + 1);
      }
      BitsEqualBelow(a / 2, b / 2, w - 1);
    }
  }

  /** The powers of two behind the masks `0x0F` and the width of a uint16. */
  lemma Pow2Facts()
    ensures Pow2(4) == 16 && Pow2(16) == 0x1_0000
  {
    assert Pow2(1) == 2 && Pow2(2) == 4 && Pow2(3) == 8 && Pow2(4) == 16;
    assert Pow2(5) == 32 && Pow2(6) == 64 && Pow2(7) == 128 && Pow2(8) == 256;
    assert Pow2(9) == 512 && Pow2(10) == 1024 && Pow2(11) == 2048 && Pow2(12) == 4096;
    assert Pow2(13) == 8192 && Pow2(14) == 16384 && Pow2(15) == 32768;
  }

  /** Two 16-bit vectors that agree on every bit are equal. */
  lemma BitsEqual(a: U16, b: U16)
    requires forall i :: 0 <= i < MaxCells ==> HasBit(a, i) == HasBit(b, i)
    ensures a == b
  {
    Pow2Facts();
    BitsEqualBelow(a, b, MaxCells);
  }

  /** No bit of 0 is set. */
  lemma {:induction false} NoBitOfZero(i: nat)
    ensures !HasBit(0, i)
  {
    if i > 0 {
      NoBitOfZero(i - 1);
    }
  }

  /** A non-zero multiple of a positive d is at least d away from zero. */
  lemma MulMono(d: int, k: int)
    requires d > 0
    ensures k >= 1 ==> d * k >= d
    ensures k <= -1 ==> d * k <= -d
  {
  }

  /** The only multiple of d strictly between -d and d is 0. */
  lemma ProductBound(d: int, k: int)
    requires d > 0 && -d < d * k < d
    ensures k == 0
  {
    MulMono(d, k);
  }

  /** The remainder is the unique r in [0, d) with x == d * a + r. */
  lemma ModUnique(x: int, d: int, a: int, r: int)
    requires d > 0 && x == d * a + r && 0 <= r < d
    ensures x % d == r
  {
    var q := x / d;
    assert x == d * q + x % d;
    assert d * (q - a) == r - x % d;
    ProductBound(d, q - a);
  }

  /** Splitting off the lowest bit commutes with reduction modulo an even
      number. */
  lemma ModDouble(v: nat, m: nat)
    requires m > 0
    ensures v % (2 * m) == 2 * ((v / 2) % m) + v % 2
  {
    var q := v / 2;
    var a, b := q / m, q % m;
    assert q == m * a + b;
    assert v == (2 * m) * a + (2 * b + v % 2);
    ModUnique(v, 2 * m, a, 2 * b + v % 2);
  }

  /** `v & (2^w - 1)` keeps exactly the w low bits of v. */
  lemma {:induction false} LowBits(v: nat, w: nat, i: nat)
    ensures HasBit(v % Pow2(w), i) == (i < w && HasBit(v, i))
  {
    if w == 0 {
      NoBitOfZero(i);
    } else {
      var m := Pow2(w - 1);
      ModDouble(v, m);
      if i > 0 {
        assert (v % Pow2(w)) / 2 == (v / 2) % m;
        LowBits(v / 2, w - 1, i - 1);
      }
    }
  }

  /** After k iterations, bit i has been cleared exactly when it was set, it
      belongs to one of the first k cells and that cell is below the limit;
      every other bit is unchanged. */
  lemma {:induction false} BalancePassBit(vector: U16, voltages: seq<U16>, limit: U16, k: nat, i: nat)
    requires k <= |voltages|
    ensures HasBit(BalancePass(vector, voltages, limit, k), i) ==
      (HasBit(vector, i) && !(i < k && voltages[i] < limit))
  {
    if k > 0 {
      var v := BalancePass(vector, voltages, limit, k - 1);
      BalancePassBit(vector, voltages, limit, k - 1, i);
      BalancePassBit(vector, voltages, limit, k - 1, k - 1);
      ClearBit(v, k - 1, i);
    }
  }

  /** The exact postcondition of a pass, cell by cell: a bit is cleared
      exactly when it was set and its cell is below the limit; bits beyond
      the cell count are never touched. */
  lemma BalanceExact(vector: U16, voltages: seq<U16>, limit: U16)
    ensures forall i :: 0 <= i < MaxCells ==>
      HasBit(Balance(vector, voltages, limit), i) ==
        (HasBit(vector, i) && !(i < |voltages| && voltages[i] < limit))
  {
    forall i | 0 <= i < MaxCells
      ensures HasBit(Balance(vector, voltages, limit), i) ==
        (HasBit(vector, i) && !(i < |voltages| && voltages[i] < limit))
    {
      BalancePassBit(vector, voltages, limit, |voltages|, i);
    }
  }

  /** A pass never sets a bit, and the cells it leaves discharging are all
      at or above the limit. */
  lemma BalanceNeverSets(vector: U16, voltages: seq<U16>, limit: U16)
    ensures forall i :: 0 <= i && HasBit(Balance(vector, voltages, limit), i) ==> HasBit(vector, i)
    ensures forall i :: 0 <= i < |voltages| && HasBit(Balance(vector, voltages, limit), i) ==>
      voltages[i] >= limit
  {
    forall i | 0 <= i
      ensures HasBit(Balance(vector, voltages, limit), i) ==
        (HasBit(vector, i) && !(i < |voltages| && voltages[i] < limit))
    {
      BalancePassBit(vector, voltages, limit, |voltages|, i);
    }
  }

  /** The vector changes exactly when some discharging cell is below the
      limit, which is when the firmware raises its flag. */
  lemma BalanceChanges(vector: U16, voltages: seq<U16>, limit: U16)
    ensures Balance(vector, voltages, limit) != vector <==> ClearsSome(vector, voltages, limit)
  {
    var r := Balance(vector, voltages, limit);
    BalanceExact(vector, voltages, limit);
    if ClearsSome(vector, voltages, limit) {
      var i :| 0 <= i < |voltages| && HasBit(vector, i) && voltages[i] < limit;
      BalancePassBit(vector, voltages, limit, |voltages|, i);
      assert HasBit(r, i) != HasBit(vector, i);
    } else {
      BitsEqual(r, vector);
    }
  }

  /** A second pass with the same voltages and limit changes nothing and
      clears no bit. */
  lemma BalanceIdempotent(vector: U16, voltages: seq<U16>, limit: U16)
    ensures Balance(Balance(vector, voltages, limit), voltages, limit) == Balance(vector, voltages, limit)
    ensures !ClearsSome(Balance(vector, voltages, limit), voltages, limit)
  {
    var r := Balance(vector, voltages, limit);
    BalanceNeverSets(vector, voltages, limit);
    BalanceChanges(r, voltages, limit);
  }

  /** Without wrap-around the limit is the plain sum; with it, the limit
      falls below the target voltage. */
  lemma LimitWraps(target: U16, fuzz: U16)
    ensures target + fuzz < 0x1_0000 ==> Limit(target, fuzz) == target + fuzz
    ensures target + fuzz >= 0x1_0000 ==> Limit(target, fuzz) == target + fuzz - 0x1_0000 < target
  {
  }

  /** Threshold 3700 mV, margin 20 mV, voltages [3690, 3750, 3705, 3600] and
      every cell discharging: only cell 1 keeps discharging. */
  lemma WorkedExample()
    ensures Balance(0xF, [3690, 3750, 3705, 3600], Limit(3700, 20)) == 0x2
  {
    var volts: seq<U16> := [3690, 3750, 3705, 3600];
    assert BalancePass(0xF, volts, 3720, 1) == 0xE;
    assert BalancePass(0xF, volts, 3720, 2) == 0xE;
    assert BalancePass(0xF, volts, 3720, 3) == 0xA;
    assert BalancePass(0xF, volts, 3720, 4) == 0x2;
  }
}
