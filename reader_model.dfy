/**
  The btrfs statistics reader as pure functions. A `reader` is a base path,
  a latched error `err` and a device count `devCount`. Each function here is
  one method of the reader: it takes the error latched before the call (and
  the device count, where the method reads it) and returns the method's
  result together with the error latched after it. Only
  `ReadFilesystemStats` changes the device count, and it returns the new one.
 */
module ReaderModel {
  import opened Wrappers
  import opened Strings
  import opened Strconv
  import opened FileTree
  import opened BtrfsTypes

  /** The errors a reader can latch. */
  datatype Error = Os(pathError: PathError) | Num(numError: NumError)

  /** The error a parse result latches, if any. */
  function ParseErr(e: Option<NumError>): Option<Error> {
    if e.None? then None else Some(Num(e.value))
  }

  /** `p` is a regular file whose trimmed content parses as the 64-bit number `v`. */
  predicate HoldsUint(fs: Tree, p: Path, v: uint64) {
    p in fs && fs[p].File? && ParseUint(TrimSpace(fs[p].content)) == (v, None)
  }

  /** `exists`: stats the path; a failure other than not-found is latched. Nothing is checked first. */
  function Exists(fs: Tree, base: Path, err: Option<Error>, p: Path): (bool, Option<Error>) {
    var e := Stat(fs, base + p);
    if e.None? then (true, err)
    else if IsNotExist(e.value) then (false, err)
    else (false, Some(Os(e.value)))
  }

  /** `readFile`: reads and trims; any read failure is latched. Nothing is checked first. */
  function ReadFile(fs: Tree, base: Path, err: Option<Error>, n: Path): (string, Option<Error>) {
    var (b, e) := FileTree.ReadFile(fs, base + n);
    assert b == "" ==> TrimSpace(b) == "";
    (TrimSpace(b), if e.Some? then Some(Os(e.value)) else err)
  }

  /** `readOptionalValue`: reads the file, answers 0 if an error is then latched, else parses and drops the parse error. */
  function ReadOptionalValue(fs: Tree, base: Path, err: Option<Error>, n: Path): (uint64, Option<Error>) {
    var (s, err1) := ReadFile(fs, base, err, n);
    if err1.Some? then (0, err1)
    else (ParseUint(s).0, err1)
  }

  /** `readValue`: answers 0 with an error latched; otherwise reads, then parses and latches the parse result. */
  function ReadValue(fs: Tree, base: Path, err: Option<Error>, n: Path): (uint64, Option<Error>) {
    if err.Some? then (0, err)
    else
      var (s, err1) := ReadFile(fs, base, err, n);
      if err1.Some? then (0, err1)
      else
        var (v, e) := ParseUint(s);
        (v, ParseErr(e))
  }

  /** `listFiles`: the names a directory lists, or none and the failure latched. Nothing is checked first. */
  function ListFiles(fs: Tree, base: Path, err: Option<Error>, p: Path): (seq<string>, Option<Error>) {
    match ReadDir(fs, base + p)
    case Success(names) => (names, err)
    case Failure(e) => ([], Some(Os(e)))
  }

  /** `readLayout`: nothing unless the layout directory exists; then its two counters and its ratio. */
  function ReadLayout(fs: Tree, base: Path, err: Option<Error>, devCount: int, p: string): (Option<LayoutUsage>, Option<Error>) {
    var (present, err1) := Exists(fs, base, err, [p]);
    if !present then (None, err1)
    else
      var (total, err2) := ReadValue(fs, base, err1, [p, "total_bytes"]);
      var (used, err3) := ReadValue(fs, base, err2, [p, "used_bytes"]);
      (Some(LayoutUsage(total, used, CalcRatio(p, devCount))), err3)
  }

  /** Every layout present in `a` carries the ratio for its name on `devCount` devices. */
  predicate RatiosFor(a: AllocationStats, devCount: int) {
    && (a.single.Some? ==> a.single.value.ratio == CalcRatio("single", devCount))
    && (a.dup.Some? ==> a.dup.value.ratio == CalcRatio("dup", devCount))
    && (a.raid0.Some? ==> a.raid0.value.ratio == CalcRatio("raid0", devCount))
    && (a.raid1.Some? ==> a.raid1.value.ratio == CalcRatio("raid1", devCount))
    && (a.raid5.Some? ==> a.raid5.value.ratio == CalcRatio("raid5", devCount))
    && (a.raid6.Some? ==> a.raid6.value.ratio == CalcRatio("raid6", devCount))
    && (a.raid10.Some? ==> a.raid10.value.ratio == CalcRatio("raid10", devCount))
  }

  /**
    The whole run of the child reader `readAllocationStats` creates for the
    class directory `dir`: it starts with no error and the parent's device
    count, reads the ten counters and probes the seven layouts in order.
   */
  function AllocationOf(fs: Tree, dir: Path, devCount: int): (AllocationStats, Option<Error>) {
    var (mayUse, e1) := ReadValue(fs, dir, None, ["bytes_may_use"]);
    var (pinned, e2) := ReadValue(fs, dir, e1, ["bytes_pinned"]);
    var (readOnly, e3) := ReadValue(fs, dir, e2, ["bytes_readonly"]);
    var (reserved, e4) := ReadValue(fs, dir, e3, ["bytes_reserved"]);
    var (used, e5) := ReadValue(fs, dir, e4, ["bytes_used"]);
    var (diskUsed, e6) := ReadValue(fs, dir, e5, ["disk_used"]);
    var (diskTotal, e7) := ReadValue(fs, dir, e6, ["disk_total"]);
    var (flags, e8) := ReadValue(fs, dir, e7, ["flags"]);
    var (total, e9) := ReadValue(fs, dir, e8, ["total_bytes"]);
    var (totalPinned, e10) := ReadValue(fs, dir, e9, ["total_bytes_pinned"]);
    var (single, e11) := ReadLayout(fs, dir, e10, devCount, "single");
    var (dup, e12) := ReadLayout(fs, dir, e11, devCount, "dup");
    var (raid0, e13) := ReadLayout(fs, dir, e12, devCount, "raid0");
    var (raid1, e14) := ReadLayout(fs, dir, e13, devCount, "raid1");
    var (raid5, e15) := ReadLayout(fs, dir, e14, devCount, "raid5");
    var (raid6, e16) := ReadLayout(fs, dir, e15, devCount, "raid6");
    var (raid10, e17) := ReadLayout(fs, dir, e16, devCount, "raid10");
    (AllocationStats(mayUse, pinned, readOnly, reserved, used, diskUsed, diskTotal, flags, total, totalPinned,
                     single, dup, raid0, raid1, raid5, raid6, raid10),
     e17)
  }

  /** `readAllocationStats`: nothing with an error latched; otherwise the child's statistics and the child's error. */
  function ReadAllocationStats(fs: Tree, base: Path, err: Option<Error>, devCount: int, d: Path): (Option<AllocationStats>, Option<Error>) {
    if err.Some? then (None, err)
    else
      var (a, childErr) := AllocationOf(fs, base + d, devCount);
      (Some(a), childErr)
  }

  /** The set of names a listing holds. */
  function NameSet(names: seq<string>): set<string> {
    set k | 0 <= k < |names| :: names[k]
  }

  /**
    The loop of `readDeviceInfo` over the listed names `names`: one entry per
    distinct name, holding 512 times the sector count `readValue` gives
    (wrapping like Go's uint64; a repeated name keeps its last entry). With
    an error latched every entry is still made, with size 0.
   */
  function DeviceLoop(fs: Tree, base: Path, err: Option<Error>, names: seq<string>): (r: (map<string, Device>, Option<Error>))
    ensures r.0.Keys == NameSet(names)
    ensures err.Some? ==> r == (map n | n in NameSet(names) :: Device(0), err)
  {
    if names == [] then (map[], err)
    else
      var (info, err1) := DeviceLoop(fs, base, err, names[..|names| - 1]);
      var n := names[|names| - 1];
      var (v, err2) := ReadValue(fs, base, err1, ["devices", n, "size"]);
      NameSetSnoc(names);
      ZeroMapSnoc(NameSet(names[..|names| - 1]), n);
      (info[n := Device(MulUint64(SectorBytes, v))], err2)
  }

  /** The last listed name joins the others. */
  lemma NameSetSnoc(names: seq<string>)
    requires names != []
    ensures NameSet(names) == NameSet(names[..|names| - 1]) + {names[|names| - 1]}
  {
    var init := names[..|names| - 1];
    assert forall k :: 0 <= k < |init| ==> init[k] == names[k];
  }

  /** Entering one more device of size 0 into a map of size-0 devices. */
  lemma ZeroMapSnoc(keys: set<string>, n: string)
    ensures (map k | k in keys :: Device(0))[n := Device(0)] == map k | k in keys + {n} :: Device(0)
  {
  }

  /**
    `readDeviceInfo`: nil with an error latched; otherwise one entry per name
    the `devices` directory lists. The parameter `d` is ignored, as in the source.
   */
  function ReadDeviceInfo(fs: Tree, base: Path, err: Option<Error>, d: Path): (Option<map<string, Device>>, Option<Error>) {
    if err.Some? then (None, err)
    else
      var (devs, err1) := ListFiles(fs, base, err, ["devices"]);
      var (info, err2) := DeviceLoop(fs, base, err1, devs);
      (Some(info), err2)
  }

  /**
    `readFilesystemStats`: devices first, then the device count, then the
    top-level values and the three allocation classes, in source order.
    Returns the statistics, the error and the device count after the call.
   */
  function ReadFilesystemStats(fs: Tree, base: Path, err: Option<Error>): (Stats, Option<Error>, int) {
    var (devices, e1) := ReadDeviceInfo(fs, base, err, ["devices"]);
    var devCount := DeviceCount(devices);
    var (volumeLabel, e2) := ReadFile(fs, base, e1, ["label"]);
    var (features, e3) := ListFiles(fs, base, e2, ["features"]);
    var (cloneAlignment, e4) := ReadValue(fs, base, e3, ["clone_alignment"]);
    var (nodeSize, e5) := ReadValue(fs, base, e4, ["nodesize"]);
    var (sectorSize, e6) := ReadValue(fs, base, e5, ["sectorsize"]);
    var (rsvReserved, e7) := ReadValue(fs, base, e6, ["allocation", "global_rsv_reserved"]);
    var (rsvSize, e8) := ReadValue(fs, base, e7, ["allocation", "global_rsv_size"]);
    var (data, e9) := ReadAllocationStats(fs, base, e8, devCount, ["allocation", "data"]);
    var (metadata, e10) := ReadAllocationStats(fs, base, e9, devCount, ["allocation", "metadata"]);
    var (system, e11) := ReadAllocationStats(fs, base, e10, devCount, ["allocation", "system"]);
    (Stats("", volumeLabel, features, cloneAlignment, nodeSize, sectorSize, devices,
           Allocation(rsvReserved, rsvSize, data, metadata, system)),
     e11, devCount)
  }

  /** `GetStats`: a fresh reader's statistics, partial when it failed, and its error. */
  function GetStats(fs: Tree, uuidPath: Path): (Stats, Option<Error>) {
    var (s, err, _) := ReadFilesystemStats(fs, uuidPath, None);
    (s, err)
  }

  /** A volume directory's statistics and error as `GetStats` reads them from `fs`. */
  function Volume(fs: Tree): Path -> (Stats, Option<Error>) {
    p => GetStats(fs, p)
  }

  /**
    The loop of `FS.Stats` over the volume directories `matches`, where
    `read` gives each directory's statistics and error: it stops at the
    first volume whose read fails, with that error; otherwise each volume's
    statistics, named after the last component of its path.
   */
  function CollectStats(read: Path -> (Stats, Option<Error>), matches: seq<Path>): Result<seq<Stats>, Error> {
    if matches == [] then Success([])
    else
      match CollectStats(read, matches[..|matches| - 1])
      case Failure(e) => Failure(e)
      case Success(prev) =>
        var p := matches[|matches| - 1];
        var (s, e) := read(p);
        if e.Some? then Failure(e.value) else Success(prev + [s.(uuid := Base(p))])
  }

  /**
    The loop fails exactly when some volume's read fails, and then with the
    error of the first such volume; otherwise it returns one entry per volume,
    in order, each that volume's statistics with its UUID taken from the path.
   */
  lemma {:induction false} CollectStatsSpec(read: Path -> (Stats, Option<Error>), matches: seq<Path>)
    ensures CollectStats(read, matches).Success? <==> forall i :: 0 <= i < |matches| ==> read(matches[i]).1.None?
    ensures CollectStats(read, matches).Success? ==>
              |CollectStats(read, matches).value| == |matches|
              && forall i :: 0 <= i < |matches| ==>
                   CollectStats(read, matches).value[i] == read(matches[i]).0.(uuid := Base(matches[i]))
    ensures CollectStats(read, matches).Failure? ==>
              exists k :: 0 <= k < |matches| && read(matches[k]).1 == Some(CollectStats(read, matches).error)
                          && forall j :: 0 <= j < k ==> read(matches[j]).1.None?
  {
    if matches != [] {
      var init := matches[..|matches| - 1];
      CollectStatsSpec(read, init);
      assert forall i :: 0 <= i < |init| ==> init[i] == matches[i];
    }
  }

  /** Once a prefix of the volumes has failed, the rest are never read. */
  lemma {:induction false} CollectStatsStops(read: Path -> (Stats, Option<Error>), matches: seq<Path>, k: nat)
    requires k <= |matches| && CollectStats(read, matches[..k]).Failure?
    ensures CollectStats(read, matches) == CollectStats(read, matches[..k])
    decreases |matches| - k
  {
    if k == |matches| {
      assert matches[..k] == matches;
    } else {
      var init := matches[..|matches| - 1];
      assert init[..k] == matches[..k];
      CollectStatsStops(read, init, k);
    }
  }

  /** The loop over a single volume. */
  lemma CollectStatsSingle(read: Path -> (Stats, Option<Error>), p: Path)
    ensures read(p).1.Some? ==> CollectStats(read, [p]) == Failure(read(p).1.value)
    ensures read(p).1.None? ==> CollectStats(read, [p]) == Success([read(p).0.(uuid := Base(p))])
  {
    assert [p][..0] == [];
    assert [] + [read(p).0.(uuid := Base(p))] == [read(p).0.(uuid := Base(p))];
  }
}
