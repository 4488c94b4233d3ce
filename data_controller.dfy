/** The byte-size presentation of the data folders: repeated division by
    1024 over the units B to TB, with PB for whatever is left. The number is
    kept as a real; the two-decimal formatting is not modelled. */
module DataController {

  datatype Unit = B | KB | MB | GB | TB | PB

  /** The units the loop tries, in order; PB follows them. */
  const LoopUnits: seq<Unit> := [B, KB, MB, GB, TB]

  function UnitAt(k: nat): (u: Unit)
    requires k <= 5
    ensures k < 5 ==> u == LoopUnits[k]
    ensures k == 5 <==> u == PB
  {
    if k < 5 then LoopUnits[k] else PB
  }

  function Pow1024(k: nat): (r: real)
    ensures r >= 1.0
  {
    if k == 0 then 1.0 else 1024.0 * Pow1024(k - 1)
  }

  /** The size expressed in the k-th unit. */
  function Scaled(size: int, k: nat): real {
    size as real / Pow1024(k)
  }

  /** The index of the reported unit: the least k below 5 whose scaled size
      is under 1024, or 5 (PB) when there is none. */
  function UnitIndex(size: int): (k: nat)
    ensures k <= 5
    ensures k < 5 ==> Scaled(size, k) < 1024.0
    ensures forall j :: 0 <= j < k ==> Scaled(size, j) >= 1024.0
  {
    UnitIndexFrom(size, 0)
  }

  function UnitIndexFrom(size: int, k: nat): (r: nat)
    requires k <= 5
    requires forall j :: 0 <= j < k ==> Scaled(size, j) >= 1024.0
    ensures k <= r <= 5
    ensures r < 5 ==> Scaled(size, r) < 1024.0
    ensures forall j :: 0 <= j < r ==> Scaled(size, j) >= 1024.0
    decreases 5 - k
  {
    if k == 5 || Scaled(size, k) < 1024.0 then k else UnitIndexFrom(size, k + 1)
  }

  /** Dividing the k-th scaled size by 1024 gives the next one. */
  lemma ScaledStep(size: int, k: nat)
    ensures Scaled(size, k) / 1024.0 == Scaled(size, k + 1)
  {
    var p := Pow1024(k);
    assert Pow1024(k + 1) == 1024.0 * p;
    calc {
      Scaled(size, k) / 1024.0;
      (size as real / p) / 1024.0;
      { assert p > 0.0; }
      size as real / (1024.0 * p);
    }
  }

  /** `bytes_to_readable` without the formatting: the reported value and
      unit. */
  method BytesToReadable(sizeInBytes: int) returns (value: real, unit: Unit)
    ensures unit == UnitAt(UnitIndex(sizeInBytes))
    ensures value == Scaled(sizeInBytes, UnitIndex(sizeInBytes))
  {
    var size := sizeInBytes as real;
    var i := 0;
    while i < |LoopUnits|
      invariant 0 <= i <= 5
      invariant size == Scaled(sizeInBytes, i)
      invariant forall j :: 0 <= j < i ==> Scaled(sizeInBytes, j) >= 1024.0
    {
      if size < 1024.0 {
        UnitIndexIsLeast(sizeInBytes, i);
        return size, LoopUnits[i];
      }
      ScaledStep(sizeInBytes, i);
      size := size / 1024.0;
      i := i + 1;
    }
    UnitIndexIsLeast(sizeInBytes, 5);
    return size, PB;
  }

  /** The unit index is the only k with the least-unit property. */
  lemma UnitIndexIsLeast(size: int, k: nat)
    requires k <= 5
    requires k < 5 ==> Scaled(size, k) < 1024.0
    requires forall j :: 0 <= j < k ==> Scaled(size, j) >= 1024.0
    ensures UnitIndex(size) == k
  {
  }

  /** A size below 1024 is reported in bytes, unchanged. */
  lemma SmallSizeInBytes(size: int)
    requires size < 1024
    ensures UnitAt(UnitIndex(size)) == B
    ensures Scaled(size, UnitIndex(size)) == size as real
  {
    UnitIndexIsLeast(size, 0);
  }

  /** The boundary is strict: exactly 1024 bytes is 1 KB. */
  lemma ExactlyOneKilobyte()
    ensures UnitAt(UnitIndex(1024)) == KB
    ensures Scaled(1024, UnitIndex(1024)) == 1.0
  {
    assert Pow1024(1) == 1024.0;
    UnitIndexIsLeast(1024, 1);
  }

  /** From 1024^5 bytes on, the unit is PB and the value is the size over
      1024^5, which may be 1024 or more. */
  lemma HugeSizesArePetabytes(size: int)
    requires size as real >= Pow1024(5)
    ensures UnitAt(UnitIndex(size)) == PB
    ensures Scaled(size, UnitIndex(size)) == size as real / Pow1024(5)
  {
    forall j | 0 <= j < 5
      ensures Scaled(size, j) >= 1024.0
    {
      PowGrows(j, 5);
      var p := Pow1024(j);
      assert Pow1024(5) >= 1024.0 * p;
      assert size as real >= 1024.0 * p;
      assert p > 0.0;
    }
    UnitIndexIsLeast(size, 5);
  }

  lemma {:induction false} PowGrows(j: nat, k: nat)
    requires j < k
    ensures Pow1024(k) >= 1024.0 * Pow1024(j)
    decreases k
  {
    if j < k - 1 {
      PowGrows(j, k - 1);
    }
  }

  /** For a non-negative size reported in B to TB, the value lies in
      [0, 1024). */
  lemma ValueBelow1024(size: int)
    requires size >= 0 && UnitIndex(size) < 5
    ensures 0.0 <= Scaled(size, UnitIndex(size)) < 1024.0
  {
    assert Pow1024(UnitIndex(size)) > 0.0;
  }

  /** A petabyte value can reach 1024: 1024^6 bytes is 1024 PB. */
  lemma PetabytesOverflow()
    ensures Scaled(1024 * 1024 * 1024 * 1024 * 1024 * 1024, 5) == 1024.0
    ensures UnitAt(UnitIndex(1024 * 1024 * 1024 * 1024 * 1024 * 1024)) == PB
  {
    var p := Pow1024(5);
    assert p == 1125899906842624.0;
    HugeSizesArePetabytes(1024 * 1024 * 1024 * 1024 * 1024 * 1024);
  }
}
