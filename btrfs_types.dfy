/**
  The records the reader fills in (btrfs `Stats`, `Allocation`,
  `AllocationStats`, `LayoutUsage`, `Device`) and the redundancy-ratio table.
  A Go reference (`*T`, a map) that may be nil is an `Option`.
 */
module BtrfsTypes {
  import opened Wrappers
  import opened Strconv

  /**
    A ratio `num / den`, standing for Go's `float64` quotient of the same two
    integers. A zero denominator stands for the unguarded division by zero.
   */
  datatype Ratio = Ratio(num: int, den: int) {
    /** This ratio is defined and equals `a / b`. */
    predicate Equals(a: int, b: int)
      requires b != 0
    {
      den != 0 && num * b == a * den
    }

    predicate IsZero() {
      den != 0 && num == 0
    }
  }

  /** Both ratios are defined and `x < y`. */
  predicate Less(x: Ratio, y: Ratio) {
    x.den != 0 && y.den != 0 && x.num * y.den * x.den * y.den < y.num * x.den * x.den * y.den
  }

  /** Usage of one allocation layout (RAID profile) of one allocation class. */
  datatype LayoutUsage = LayoutUsage(totalBytes: uint64, usedBytes: uint64, ratio: Ratio)

  /** Allocation counters of one class (data, metadata or system) and its layouts. */
  datatype AllocationStats = AllocationStats(
    mayUseBytes: uint64,
    pinnedBytes: uint64,
    readOnlyBytes: uint64,
    reservedBytes: uint64,
    usedBytes: uint64,
    diskUsedBytes: uint64,
    diskTotalBytes: uint64,
    flags: uint64,
    totalBytes: uint64,
    totalPinnedBytes: uint64,
    single: Option<LayoutUsage>,
    dup: Option<LayoutUsage>,
    raid0: Option<LayoutUsage>,
    raid1: Option<LayoutUsage>,
    raid5: Option<LayoutUsage>,
    raid6: Option<LayoutUsage>,
    raid10: Option<LayoutUsage>)

  datatype Allocation = Allocation(
    globalRsvReserved: uint64,
    globalRsvSize: uint64,
    data: Option<AllocationStats>,
    metadata: Option<AllocationStats>,
    system: Option<AllocationStats>)

  datatype Device = Device(size: uint64)

  /** One volume's statistics. `devices` is None for a nil device map. */
  datatype Stats = Stats(
    uuid: string,
    volumeLabel: string,
    features: seq<string>,
    cloneAlignment: uint64,
    nodeSize: uint64,
    sectorSize: uint64,
    devices: Option<map<string, Device>>,
    allocation: Allocation)

  /** `len` of a possibly nil device map. */
  function DeviceCount(devices: Option<map<string, Device>>): nat {
    if devices.None? then 0 else |devices.value|
  }

  /** The sector size a device's `size` file counts in. */
  const SectorBytes: int := 512

  /** Go's `uint64` multiplication, which wraps around modulo 2^64. */
  function MulUint64(a: uint64, b: uint64): (r: uint64)
    ensures a * b <= MaxUint64 ==> r == a * b
  {
    (a * b) % (MaxUint64 + 1)
  }

  /** The seven layouts an allocation class is probed for, in probing order. */
  const Layouts: seq<string> := ["single", "dup", "raid0", "raid1", "raid5", "raid6", "raid10"]

  /** Parity stripes of the two parity layouts. */
  function Parity(p: string): nat {
    if p == "raid5" then 1 else if p == "raid6" then 2 else 0
  }

  predicate IsParityLayout(p: string) {
    p == "raid5" || p == "raid6"
  }

  /**
    `calcRatio`: disk bytes consumed per logical byte stored by layout `p`
    on `devCount` devices. Unknown names give 0; the parity layouts divide
    without a guard.
   */
  function CalcRatio(p: string, devCount: int): (r: Ratio)
    ensures (p == "single" || p == "raid0") ==> r.Equals(1, 1)
    ensures (p == "dup" || p == "raid1" || p == "raid10") ==> r.Equals(2, 1)
    ensures IsParityLayout(p) ==> r == Ratio(devCount, devCount - Parity(p))
    ensures p !in Layouts ==> r.IsZero()
  {
    match p
    case "single" => Ratio(1, 1)
    case "raid0" => Ratio(1, 1)
    case "dup" => Ratio(2, 1)
    case "raid1" => Ratio(2, 1)
    case "raid10" => Ratio(2, 1)
    case "raid5" => Ratio(devCount, devCount - 1)
    case "raid6" => Ratio(devCount, devCount - 2)
    case _ => Ratio(0, 1)
  }

  /** The ratio is zero exactly for unknown layouts and for parity layouts counted on no device. */
  lemma RatioZeroIff(p: string, devCount: int)
    ensures CalcRatio(p, devCount).IsZero() <==> (p !in Layouts || (IsParityLayout(p) && devCount == 0))
  {
  }

  /**
    With more devices than parity stripes, a parity layout spends `devCount`
    disk bytes per `devCount - parity` logical bytes: the ratio lies above 1
    and at most `parity + 1`.
   */
  lemma ParityRatioBounds(p: string, devCount: int)
    requires IsParityLayout(p) && devCount > Parity(p)
    ensures CalcRatio(p, devCount).Equals(devCount, devCount - Parity(p))
    ensures Less(Ratio(1, 1), CalcRatio(p, devCount))
    ensures !Less(Ratio(Parity(p) + 1, 1), CalcRatio(p, devCount))
  {
    var k := Parity(p);
    var r := CalcRatio(p, devCount);
    assert r.num == devCount && r.den == devCount - k > 0;
    assert (k + 1) * r.den >= r.num by {
      assert (k + 1) * (devCount - k) - devCount == k * (devCount - k - 1);
      assert k * (devCount - k - 1) >= 0;
    }
    PositiveProduct(r.den, r.den);
    LessPositive(Ratio(1, 1), r);
    LessPositive(Ratio(k + 1, 1), r);
  }

  /** Each further device amortises the parity better: the ratio strictly decreases. */
  lemma ParityRatioDecreasing(p: string, devCount: int)
    requires IsParityLayout(p) && devCount > Parity(p)
    ensures Less(CalcRatio(p, devCount + 1), CalcRatio(p, devCount))
  {
    var k := Parity(p);
    var x := CalcRatio(p, devCount + 1);
    var y := CalcRatio(p, devCount);
    assert x.num * y.den < y.num * x.den by {
      assert x.num * y.den == (devCount + 1) * (devCount - k);
      assert y.num * x.den == devCount * (devCount + 1 - k);
      assert devCount * (devCount + 1 - k) - (devCount + 1) * (devCount - k) == k;
    }
    LessPositive(x, y);
  }

  /**
    The source does not guard the parity layouts: on exactly as many devices
    as parity stripes the division is by zero, and on fewer (but some)
    devices the ratio is negative.
   */
  lemma ParityRatioUnguarded(p: string, devCount: int)
    requires IsParityLayout(p)
    ensures devCount == Parity(p) ==> CalcRatio(p, devCount).den == 0 && CalcRatio(p, devCount).num > 0
    ensures 0 < devCount < Parity(p) ==> CalcRatio(p, devCount).num * CalcRatio(p, devCount).den < 0
  {
    if 0 < devCount < Parity(p) {
      var r := CalcRatio(p, devCount);
      assert r.num > 0 && r.den < 0;
      NegativeProduct(r.num, r.den);
    }
  }

  /** raid5 on three devices is 1.5; raid6 on four devices is 2. */
  lemma RatioExamples()
    ensures CalcRatio("raid5", 3).Equals(3, 2)
    ensures CalcRatio("raid6", 4).Equals(2, 1)
  {
  }

  lemma PositiveProduct(a: int, b: int)
    requires a > 0 && b > 0
    ensures a * b > 0
  {
  }

  lemma NegativeProduct(a: int, b: int)
    requires a > 0 && b < 0
    ensures a * b < 0
  {
  }

  /** For positive denominators, `Less` is the cross-multiplied comparison. */
  lemma LessPositive(x: Ratio, y: Ratio)
    requires x.den > 0 && y.den > 0
    ensures Less(x, y) <==> x.num * y.den < y.num * x.den
  {
    var q := x.den * y.den;
    PositiveProduct(x.den, y.den);
    assert x.num * y.den * x.den * y.den == (x.num * y.den) * q;
    assert y.num * x.den * x.den * y.den == (y.num * x.den) * q;
    ScaleMonotone(x.num * y.den, y.num * x.den, q);
  }

  lemma ScaleMonotone(a: int, b: int, q: int)
    requires q > 0
    ensures a < b <==> a * q < b * q
  {
    if a < b {
      assert b * q - a * q == (b - a) * q;
      PositiveProduct(b - a, q);
    } else {
      assert a * q - b * q == (a - b) * q;
      if a > b { PositiveProduct(a - b, q); }
    }
  }
}
