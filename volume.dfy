/**
  What one volume directory must hold for the reader to succeed, and what
  the reader then returns: the statistics read field by field from the
  tree, with no error. Both directions are proved: any file that cannot be
  read or parsed makes the read fail.
 */
module VolumeProperties {
  import opened Wrappers
  import opened Strings
  import opened Strconv
  import opened FileTree
  import opened BtrfsTypes
  import opened ReaderModel

  /** `p` is a regular file whose trimmed content is a decimal 64-bit number. */
  predicate Readable(fs: Tree, p: Path) {
    p in fs && fs[p].File? && ParseUint(TrimSpace(fs[p].content)).1.None?
  }

  /** The number a readable file holds (0 for any other path). */
  function ValueAt(fs: Tree, p: Path): uint64 {
    if p in fs && fs[p].File? then ParseUint(TrimSpace(fs[p].content)).0 else 0
  }

  /** The ten counter files of an allocation class, in reading order. */
  const Counters: seq<string> := ["bytes_may_use", "bytes_pinned", "bytes_readonly", "bytes_reserved", "bytes_used",
                                  "disk_used", "disk_total", "flags", "total_bytes", "total_bytes_pinned"]

  /** A layout is absent, or present with two readable counters. */
  predicate LayoutReadable(fs: Tree, dir: Path, p: string) {
    dir + [p] !in fs
    || (!fs[dir + [p]].Failing? && Readable(fs, dir + [p, "total_bytes"]) && Readable(fs, dir + [p, "used_bytes"]))
  }

  /** The usage a readable layout reports. */
  function LayoutAt(fs: Tree, dir: Path, devCount: int, p: string): Option<LayoutUsage> {
    if dir + [p] in fs && !fs[dir + [p]].Failing? then
      Some(LayoutUsage(ValueAt(fs, dir + [p, "total_bytes"]), ValueAt(fs, dir + [p, "used_bytes"]), CalcRatio(p, devCount)))
    else None
  }

  /** Every counter of the class is readable and every layout is absent or readable. */
  predicate ClassReadable(fs: Tree, dir: Path) {
    && (forall k :: 0 <= k < |Counters| ==> Readable(fs, dir + [Counters[k]]))
    && (forall k :: 0 <= k < |Layouts| ==> LayoutReadable(fs, dir, Layouts[k]))
  }

  /** The statistics of a readable class, each field taken from its file. */
  function ClassAt(fs: Tree, dir: Path, devCount: int): AllocationStats {
    AllocationStats(
      ValueAt(fs, dir + ["bytes_may_use"]), ValueAt(fs, dir + ["bytes_pinned"]), ValueAt(fs, dir + ["bytes_readonly"]),
      ValueAt(fs, dir + ["bytes_reserved"]), ValueAt(fs, dir + ["bytes_used"]), ValueAt(fs, dir + ["disk_used"]),
      ValueAt(fs, dir + ["disk_total"]), ValueAt(fs, dir + ["flags"]), ValueAt(fs, dir + ["total_bytes"]),
      ValueAt(fs, dir + ["total_bytes_pinned"]),
      LayoutAt(fs, dir, devCount, "single"), LayoutAt(fs, dir, devCount, "dup"), LayoutAt(fs, dir, devCount, "raid0"),
      LayoutAt(fs, dir, devCount, "raid1"), LayoutAt(fs, dir, devCount, "raid5"), LayoutAt(fs, dir, devCount, "raid6"),
      LayoutAt(fs, dir, devCount, "raid10"))
  }

  /** With nothing latched, `readValue` succeeds exactly on a readable file, and returns its number. */
  lemma ReadValueOk(fs: Tree, base: Path, n: Path)
    ensures ReadValue(fs, base, None, n).1.None? <==> Readable(fs, base + n)
    ensures Readable(fs, base + n) ==> ReadValue(fs, base, None, n) == (ValueAt(fs, base + n), None)
  {
  }

  /** A latched error stays latched through `readValue`. */
  lemma ReadValueSticks(fs: Tree, base: Path, err: Option<Error>, n: Path)
    requires err.Some?
    ensures ReadValue(fs, base, err, n).1.Some?
  {
  }

  /** One `readFile`: it ends without error only after success and on a regular file, and then gives its trimmed text. */
  lemma FileStep(fs: Tree, base: Path, err: Option<Error>, n: Path)
    ensures ReaderModel.ReadFile(fs, base, err, n).1.None? <==> err.None? && base + n in fs && fs[base + n].File?
    ensures ReaderModel.ReadFile(fs, base, err, n).1.None? ==> ReaderModel.ReadFile(fs, base, err, n).0 == TrimSpace(fs[base + n].content)
  {
  }

  /** One `listFiles`: it ends without error only after success and on a directory, and then gives its names. */
  lemma ListStep(fs: Tree, base: Path, err: Option<Error>, p: Path)
    ensures ListFiles(fs, base, err, p).1.None? <==> err.None? && base + p in fs && fs[base + p].Dir?
    ensures ListFiles(fs, base, err, p).1.None? ==> ListFiles(fs, base, err, p).0 == fs[base + p].names
  {
  }

  /** With nothing latched, `readLayout` succeeds exactly on a readable layout, and returns its usage. */
  lemma ReadLayoutOk(fs: Tree, base: Path, devCount: int, p: string)
    ensures ReadLayout(fs, base, None, devCount, p).1.None? <==> LayoutReadable(fs, base, p)
    ensures LayoutReadable(fs, base, p) ==> ReadLayout(fs, base, None, devCount, p) == (LayoutAt(fs, base, devCount, p), None)
  {
    assert base + [p] + ["total_bytes"] == base + [p, "total_bytes"];
    assert base + [p] + ["used_bytes"] == base + [p, "used_bytes"];
    ReadValueOk(fs, base, [p, "total_bytes"]);
    if ReadValue(fs, base, None, [p, "total_bytes"]).1.None? {
      ReadValueOk(fs, base, [p, "used_bytes"]);
    }
  }

  /** A latched error stays latched through `readLayout`. */
  lemma ReadLayoutSticks(fs: Tree, base: Path, err: Option<Error>, devCount: int, p: string)
    requires err.Some?
    ensures ReadLayout(fs, base, err, devCount, p).1.Some?
  {
  }

  /** One `readValue`: it succeeds only after success and on a readable file, and then gives that file's number. */
  lemma ValueStep(fs: Tree, dir: Path, err: Option<Error>, n: Path)
    ensures ReadValue(fs, dir, err, n).1.None? <==> err.None? && Readable(fs, dir + n)
    ensures ReadValue(fs, dir, err, n).1.None? ==> ReadValue(fs, dir, err, n).0 == ValueAt(fs, dir + n)
  {
    if err.None? {
      ReadValueOk(fs, dir, n);
    }
  }

  /** One layout probe: it succeeds only after success and on a readable layout, and then gives that layout's usage. */
  lemma LayoutStep(fs: Tree, dir: Path, err: Option<Error>, devCount: int, p: string)
    ensures ReadLayout(fs, dir, err, devCount, p).1.None? <==> err.None? && LayoutReadable(fs, dir, p)
    ensures ReadLayout(fs, dir, err, devCount, p).1.None? ==> ReadLayout(fs, dir, err, devCount, p).0 == LayoutAt(fs, dir, devCount, p)
  {
    if err.None? {
      ReadLayoutOk(fs, dir, devCount, p);
    } else {
      ReadLayoutSticks(fs, dir, err, devCount, p);
    }
  }

  /** `ClassReadable` file by file. */
  lemma ClassReadableFiles(fs: Tree, dir: Path)
    ensures ClassReadable(fs, dir) <==>
              && Readable(fs, dir + ["bytes_may_use"])
              && Readable(fs, dir + ["bytes_pinned"])
              && Readable(fs, dir + ["bytes_readonly"])
              && Readable(fs, dir + ["bytes_reserved"])
              && Readable(fs, dir + ["bytes_used"])
              && Readable(fs, dir + ["disk_used"])
              && Readable(fs, dir + ["disk_total"])
              && Readable(fs, dir + ["flags"])
              && Readable(fs, dir + ["total_bytes"])
              && Readable(fs, dir + ["total_bytes_pinned"])
              && LayoutReadable(fs, dir, "single")
              && LayoutReadable(fs, dir, "dup")
              && LayoutReadable(fs, dir, "raid0")
              && LayoutReadable(fs, dir, "raid1")
              && LayoutReadable(fs, dir, "raid5")
              && LayoutReadable(fs, dir, "raid6")
              && LayoutReadable(fs, dir, "raid10")
  {
    if !ClassReadable(fs, dir) {
      if exists k :: 0 <= k < |Counters| && !Readable(fs, dir + [Counters[k]]) {
        var k :| 0 <= k < |Counters| && !Readable(fs, dir + [Counters[k]]);
        assert k == 0 || k == 1 || k == 2 || k == 3 || k == 4 || k == 5 || k == 6 || k == 7 || k == 8 || k == 9;
      } else {
        var k :| 0 <= k < |Layouts| && !LayoutReadable(fs, dir, Layouts[k]);
        assert k == 0 || k == 1 || k == 2 || k == 3 || k == 4 || k == 5 || k == 6;
      }
    } else {
      assert Readable(fs, dir + [Counters[0]]);
      assert Readable(fs, dir + [Counters[1]]);
      assert Readable(fs, dir + [Counters[2]]);
      assert Readable(fs, dir + [Counters[3]]);
      assert Readable(fs, dir + [Counters[4]]);
      assert Readable(fs, dir + [Counters[5]]);
      assert Readable(fs, dir + [Counters[6]]);
      assert Readable(fs, dir + [Counters[7]]);
      assert Readable(fs, dir + [Counters[8]]);
      assert Readable(fs, dir + [Counters[9]]);
      assert LayoutReadable(fs, dir, Layouts[0]);
      assert LayoutReadable(fs, dir, Layouts[1]);
      assert LayoutReadable(fs, dir, Layouts[2]);
      assert LayoutReadable(fs, dir, Layouts[3]);
      assert LayoutReadable(fs, dir, Layouts[4]);
      assert LayoutReadable(fs, dir, Layouts[5]);
      assert LayoutReadable(fs, dir, Layouts[6]);
    }
  }

  /**
    The child reader of an allocation class ends without error exactly when
    the class is readable, and then returns every counter and layout as its
    file holds it, each layout with the ratio for the given device count.
   */
  lemma AllocationOk(fs: Tree, dir: Path, devCount: int)
    ensures AllocationOf(fs, dir, devCount).1.None? <==> ClassReadable(fs, dir)
    ensures ClassReadable(fs, dir) ==> AllocationOf(fs, dir, devCount) == (ClassAt(fs, dir, devCount), None)
  {
    var (mayUse, e1) := ReadValue(fs, dir, None, ["bytes_may_use"]);
    ValueStep(fs, dir, None, ["bytes_may_use"]);
    var (pinned, e2) := ReadValue(fs, dir, e1, ["bytes_pinned"]);
    ValueStep(fs, dir, e1, ["bytes_pinned"]);
    var (readOnly, e3) := ReadValue(fs, dir, e2, ["bytes_readonly"]);
    ValueStep(fs, dir, e2, ["bytes_readonly"]);
    var (reserved, e4) := ReadValue(fs, dir, e3, ["bytes_reserved"]);
    ValueStep(fs, dir, e3, ["bytes_reserved"]);
    var (used, e5) := ReadValue(fs, dir, e4, ["bytes_used"]);
    ValueStep(fs, dir, e4, ["bytes_used"]);
    var (diskUsed, e6) := ReadValue(fs, dir, e5, ["disk_used"]);
    ValueStep(fs, dir, e5, ["disk_used"]);
    var (diskTotal, e7) := ReadValue(fs, dir, e6, ["disk_total"]);
    ValueStep(fs, dir, e6, ["disk_total"]);
    var (flags, e8) := ReadValue(fs, dir, e7, ["flags"]);
    ValueStep(fs, dir, e7, ["flags"]);
    var (total, e9) := ReadValue(fs, dir, e8, ["total_bytes"]);
    ValueStep(fs, dir, e8, ["total_bytes"]);
    var (totalPinned, e10) := ReadValue(fs, dir, e9, ["total_bytes_pinned"]);
    ValueStep(fs, dir, e9, ["total_bytes_pinned"]);
    var (single, e11) := ReadLayout(fs, dir, e10, devCount, "single");
    LayoutStep(fs, dir, e10, devCount, "single");
    var (dup, e12) := ReadLayout(fs, dir, e11, devCount, "dup");
    LayoutStep(fs, dir, e11, devCount, "dup");
    var (raid0, e13) := ReadLayout(fs, dir, e12, devCount, "raid0");
    LayoutStep(fs, dir, e12, devCount, "raid0");
    var (raid1, e14) := ReadLayout(fs, dir, e13, devCount, "raid1");
    LayoutStep(fs, dir, e13, devCount, "raid1");
    var (raid5, e15) := ReadLayout(fs, dir, e14, devCount, "raid5");
    LayoutStep(fs, dir, e14, devCount, "raid5");
    var (raid6, e16) := ReadLayout(fs, dir, e15, devCount, "raid6");
    LayoutStep(fs, dir, e15, devCount, "raid6");
    var (raid10, e17) := ReadLayout(fs, dir, e16, devCount, "raid10");
    LayoutStep(fs, dir, e16, devCount, "raid10");
    ClassReadableFiles(fs, dir);
  }

  /** The device map a readable `devices` directory gives: 512 times each listed device's sector count. */
  function DevicesAt(fs: Tree, base: Path, names: seq<string>): map<string, Device> {
    map n | n in NameSet(names) :: Device(MulUint64(SectorBytes, ValueAt(fs, base + ["devices", n, "size"])))
  }

  /** The device map has one entry per listed name. */
  lemma DevicesAtKeys(fs: Tree, base: Path, names: seq<string>)
    ensures DevicesAt(fs, base, names).Keys == NameSet(names)
  {
  }

  /** Every listed device has a readable `size` file. */
  predicate SizesReadable(fs: Tree, base: Path, names: seq<string>) {
    forall k :: 0 <= k < |names| ==> Readable(fs, base + ["devices", names[k], "size"])
  }

  /**
    The device loop, started without error, ends without error exactly when
    every listed device's size is readable, and then maps each listed
    name to its size in bytes.
   */
  lemma {:induction false} DeviceLoopOk(fs: Tree, base: Path, names: seq<string>)
    ensures DeviceLoop(fs, base, None, names).1.None? <==> SizesReadable(fs, base, names)
    ensures SizesReadable(fs, base, names) ==> DeviceLoop(fs, base, None, names).0 == DevicesAt(fs, base, names)
  {
    if names != [] {
      var init := names[..|names| - 1];
      var n := names[|names| - 1];
      DeviceLoopOk(fs, base, init);
      var (info, e1) := DeviceLoop(fs, base, None, init);
      var (v, e2) := ReadValue(fs, base, e1, ["devices", n, "size"]);
      assert DeviceLoop(fs, base, None, names) == (info[n := Device(MulUint64(SectorBytes, v))], e2);
      ValueStep(fs, base, e1, ["devices", n, "size"]);
      SizesSnoc(fs, base, names);
      if SizesReadable(fs, base, names) {
        DevicesAtSnoc(fs, base, init, n);
        assert names == init + [n];
      }
    }
  }

  /** The last name's size file joins the others. */
  lemma SizesSnoc(fs: Tree, base: Path, names: seq<string>)
    requires names != []
    ensures SizesReadable(fs, base, names) <==>
              SizesReadable(fs, base, names[..|names| - 1]) && Readable(fs, base + ["devices", names[|names| - 1], "size"])
  {
    var init := names[..|names| - 1];
    assert forall k :: 0 <= k < |init| ==> init[k] == names[k];
  }

  /** Listing one more name adds (or replaces) that name's entry. */
  lemma DevicesAtSnoc(fs: Tree, base: Path, init: seq<string>, n: string)
    ensures DevicesAt(fs, base, init + [n])
            == DevicesAt(fs, base, init)[n := Device(MulUint64(SectorBytes, ValueAt(fs, base + ["devices", n, "size"])))]
  {
    assert NameSet(init + [n]) == NameSet(init) + {n} by {
      var s := init + [n];
      assert forall k :: 0 <= k < |init| ==> s[k] == init[k];
      assert s[|init|] == n;
    }
  }

  /** The `devices` directory lists, and every listed device's size is readable. */
  predicate DevicesReadable(fs: Tree, base: Path) {
    base + ["devices"] in fs && fs[base + ["devices"]].Dir? && SizesReadable(fs, base, fs[base + ["devices"]].names)
  }

  /** `readDeviceInfo`: succeeds only after success and on readable devices, and then gives their map. */
  lemma DevicesStep(fs: Tree, base: Path, err: Option<Error>, d: Path)
    ensures ReadDeviceInfo(fs, base, err, d).1.None? <==> err.None? && DevicesReadable(fs, base)
    ensures ReadDeviceInfo(fs, base, err, d).1.None? ==>
              ReadDeviceInfo(fs, base, err, d).0 == Some(DevicesAt(fs, base, fs[base + ["devices"]].names))
  {
    if err.None? {
      var (devs, e1) := ListFiles(fs, base, err, ["devices"]);
      if e1.None? {
        DeviceLoopOk(fs, base, devs);
      }
    }
  }

  /** `readAllocationStats`: succeeds only after success and on a readable class, and then gives its statistics. */
  lemma ClassStep(fs: Tree, base: Path, err: Option<Error>, devCount: int, d: Path)
    ensures ReadAllocationStats(fs, base, err, devCount, d).1.None? <==> err.None? && ClassReadable(fs, base + d)
    ensures ReadAllocationStats(fs, base, err, devCount, d).1.None? ==>
              ReadAllocationStats(fs, base, err, devCount, d).0 == Some(ClassAt(fs, base + d, devCount))
  {
    AllocationOk(fs, base + d, devCount);
  }

  /** Every file and directory `readFilesystemStats` reads is there and holds what it should. */
  predicate VolumeReadable(fs: Tree, base: Path) {
    && DevicesReadable(fs, base)
    && base + ["label"] in fs && fs[base + ["label"]].File?
    && base + ["features"] in fs && fs[base + ["features"]].Dir?
    && Readable(fs, base + ["clone_alignment"])
    && Readable(fs, base + ["nodesize"])
    && Readable(fs, base + ["sectorsize"])
    && Readable(fs, base + ["allocation", "global_rsv_reserved"])
    && Readable(fs, base + ["allocation", "global_rsv_size"])
    && ClassReadable(fs, base + ["allocation", "data"])
    && ClassReadable(fs, base + ["allocation", "metadata"])
    && ClassReadable(fs, base + ["allocation", "system"])
  }

  /**
    The statistics of a readable volume, each field from its file; every
    layout ratio is computed on the number of devices listed.
   */
  function VolumeAt(fs: Tree, base: Path): Stats
    requires VolumeReadable(fs, base)
  {
    var devices := DevicesAt(fs, base, fs[base + ["devices"]].names);
    var devCount := |devices|;
    Stats("", TrimSpace(fs[base + ["label"]].content), fs[base + ["features"]].names,
          ValueAt(fs, base + ["clone_alignment"]), ValueAt(fs, base + ["nodesize"]), ValueAt(fs, base + ["sectorsize"]),
          Some(devices),
          Allocation(ValueAt(fs, base + ["allocation", "global_rsv_reserved"]),
                     ValueAt(fs, base + ["allocation", "global_rsv_size"]),
                     Some(ClassAt(fs, base + ["allocation", "data"], devCount)),
                     Some(ClassAt(fs, base + ["allocation", "metadata"], devCount)),
                     Some(ClassAt(fs, base + ["allocation", "system"], devCount))))
  }

  /**
    Reading a volume with a fresh reader ends without error exactly when the
    volume is readable, and then gives the volume's statistics as its files
    hold them.
   */
  lemma VolumeOk(fs: Tree, base: Path)
    ensures ReadFilesystemStats(fs, base, None).1.None? <==> VolumeReadable(fs, base)
    ensures VolumeReadable(fs, base) ==> ReadFilesystemStats(fs, base, None).0 == VolumeAt(fs, base)
  {
    if ReadFilesystemStats(fs, base, None).1.None? {
      VolumeErrorFree(fs, base);
    }
    if VolumeReadable(fs, base) {
      VolumeValues(fs, base);
    }
  }

  /** A read without error was a read of a readable volume. */
  lemma VolumeErrorFree(fs: Tree, base: Path)
    requires ReadFilesystemStats(fs, base, None).1.None?
    ensures VolumeReadable(fs, base)
  {
    DevicesErrorFree(fs, base);
    TopLevelErrorFree(fs, base);
    ClassesErrorFree(fs, base);
  }

  /** A read without error had readable devices, label and features. */
  lemma DevicesErrorFree(fs: Tree, base: Path)
    requires ReadFilesystemStats(fs, base, None).1.None?
    ensures DevicesReadable(fs, base)
    ensures base + ["label"] in fs && fs[base + ["label"]].File?
    ensures base + ["features"] in fs && fs[base + ["features"]].Dir?
  {
    var (devices, e1) := ReadDeviceInfo(fs, base, None, ["devices"]);
    DevicesStep(fs, base, None, ["devices"]);
    var devCount := DeviceCount(devices);
    var (volumeLabel, e2) := ReaderModel.ReadFile(fs, base, e1, ["label"]);
    FileStep(fs, base, e1, ["label"]);
    var (features, e3) := ListFiles(fs, base, e2, ["features"]);
    ListStep(fs, base, e2, ["features"]);
    var (cloneAlignment, e4) := ReadValue(fs, base, e3, ["clone_alignment"]);
    ValueStep(fs, base, e3, ["clone_alignment"]);
    var (nodeSize, e5) := ReadValue(fs, base, e4, ["nodesize"]);
    ValueStep(fs, base, e4, ["nodesize"]);
    var (sectorSize, e6) := ReadValue(fs, base, e5, ["sectorsize"]);
    ValueStep(fs, base, e5, ["sectorsize"]);
    var (rsvReserved, e7) := ReadValue(fs, base, e6, ["allocation", "global_rsv_reserved"]);
    ValueStep(fs, base, e6, ["allocation", "global_rsv_reserved"]);
    var (rsvSize, e8) := ReadValue(fs, base, e7, ["allocation", "global_rsv_size"]);
    ValueStep(fs, base, e7, ["allocation", "global_rsv_size"]);
    var (data, e9) := ReadAllocationStats(fs, base, e8, devCount, ["allocation", "data"]);
    ClassStep(fs, base, e8, devCount, ["allocation", "data"]);
    var (metadata, e10) := ReadAllocationStats(fs, base, e9, devCount, ["allocation", "metadata"]);
    ClassStep(fs, base, e9, devCount, ["allocation", "metadata"]);
    var (system, e11) := ReadAllocationStats(fs, base, e10, devCount, ["allocation", "system"]);
    ClassStep(fs, base, e10, devCount, ["allocation", "system"]);
  }

  /** A read without error had readable top-level numbers. */
  lemma TopLevelErrorFree(fs: Tree, base: Path)
    requires ReadFilesystemStats(fs, base, None).1.None?
    ensures Readable(fs, base + ["clone_alignment"])
    ensures Readable(fs, base + ["nodesize"])
    ensures Readable(fs, base + ["sectorsize"])
    ensures Readable(fs, base + ["allocation", "global_rsv_reserved"])
    ensures Readable(fs, base + ["allocation", "global_rsv_size"])
  {
    var (devices, e1) := ReadDeviceInfo(fs, base, None, ["devices"]);
    DevicesStep(fs, base, None, ["devices"]);
    var devCount := DeviceCount(devices);
    var (volumeLabel, e2) := ReaderModel.ReadFile(fs, base, e1, ["label"]);
    FileStep(fs, base, e1, ["label"]);
    var (features, e3) := ListFiles(fs, base, e2, ["features"]);
    ListStep(fs, base, e2, ["features"]);
    var (cloneAlignment, e4) := ReadValue(fs, base, e3, ["clone_alignment"]);
    ValueStep(fs, base, e3, ["clone_alignment"]);
    var (nodeSize, e5) := ReadValue(fs, base, e4, ["nodesize"]);
    ValueStep(fs, base, e4, ["nodesize"]);
    var (sectorSize, e6) := ReadValue(fs, base, e5, ["sectorsize"]);
    ValueStep(fs, base, e5, ["sectorsize"]);
    var (rsvReserved, e7) := ReadValue(fs, base, e6, ["allocation", "global_rsv_reserved"]);
    ValueStep(fs, base, e6, ["allocation", "global_rsv_reserved"]);
    var (rsvSize, e8) := ReadValue(fs, base, e7, ["allocation", "global_rsv_size"]);
    ValueStep(fs, base, e7, ["allocation", "global_rsv_size"]);
    var (data, e9) := ReadAllocationStats(fs, base, e8, devCount, ["allocation", "data"]);
    ClassStep(fs, base, e8, devCount, ["allocation", "data"]);
    var (metadata, e10) := ReadAllocationStats(fs, base, e9, devCount, ["allocation", "metadata"]);
    ClassStep(fs, base, e9, devCount, ["allocation", "metadata"]);
    var (system, e11) := ReadAllocationStats(fs, base, e10, devCount, ["allocation", "system"]);
    ClassStep(fs, base, e10, devCount, ["allocation", "system"]);
  }

  /** A read without error had three readable allocation classes. */
  lemma ClassesErrorFree(fs: Tree, base: Path)
    requires ReadFilesystemStats(fs, base, None).1.None?
    ensures ClassReadable(fs, base + ["allocation", "data"])
    ensures ClassReadable(fs, base + ["allocation", "metadata"])
    ensures ClassReadable(fs, base + ["allocation", "system"])
  {
    var (devices, e1) := ReadDeviceInfo(fs, base, None, ["devices"]);
    DevicesStep(fs, base, None, ["devices"]);
    var devCount := DeviceCount(devices);
    var (volumeLabel, e2) := ReaderModel.ReadFile(fs, base, e1, ["label"]);
    FileStep(fs, base, e1, ["label"]);
    var (features, e3) := ListFiles(fs, base, e2, ["features"]);
    ListStep(fs, base, e2, ["features"]);
    var (cloneAlignment, e4) := ReadValue(fs, base, e3, ["clone_alignment"]);
    ValueStep(fs, base, e3, ["clone_alignment"]);
    var (nodeSize, e5) := ReadValue(fs, base, e4, ["nodesize"]);
    ValueStep(fs, base, e4, ["nodesize"]);
    var (sectorSize, e6) := ReadValue(fs, base, e5, ["sectorsize"]);
    ValueStep(fs, base, e5, ["sectorsize"]);
    var (rsvReserved, e7) := ReadValue(fs, base, e6, ["allocation", "global_rsv_reserved"]);
    ValueStep(fs, base, e6, ["allocation", "global_rsv_reserved"]);
    var (rsvSize, e8) := ReadValue(fs, base, e7, ["allocation", "global_rsv_size"]);
    ValueStep(fs, base, e7, ["allocation", "global_rsv_size"]);
    var (data, e9) := ReadAllocationStats(fs, base, e8, devCount, ["allocation", "data"]);
    ClassStep(fs, base, e8, devCount, ["allocation", "data"]);
    var (metadata, e10) := ReadAllocationStats(fs, base, e9, devCount, ["allocation", "metadata"]);
    ClassStep(fs, base, e9, devCount, ["allocation", "metadata"]);
    var (system, e11) := ReadAllocationStats(fs, base, e10, devCount, ["allocation", "system"]);
    ClassStep(fs, base, e10, devCount, ["allocation", "system"]);
  }

  /** A readable volume reads without error, as its files hold it. */
  lemma VolumeValues(fs: Tree, base: Path)
    requires VolumeReadable(fs, base)
    ensures ReadFilesystemStats(fs, base, None).1.None?
    ensures ReadFilesystemStats(fs, base, None).0 == VolumeAt(fs, base)
  {
    var (devices, e1) := ReadDeviceInfo(fs, base, None, ["devices"]);
    DevicesStep(fs, base, None, ["devices"]);
    var devCount := DeviceCount(devices);
    var (volumeLabel, e2) := ReaderModel.ReadFile(fs, base, e1, ["label"]);
    FileStep(fs, base, e1, ["label"]);
    var (features, e3) := ListFiles(fs, base, e2, ["features"]);
    ListStep(fs, base, e2, ["features"]);
    var (cloneAlignment, e4) := ReadValue(fs, base, e3, ["clone_alignment"]);
    ValueStep(fs, base, e3, ["clone_alignment"]);
    var (nodeSize, e5) := ReadValue(fs, base, e4, ["nodesize"]);
    ValueStep(fs, base, e4, ["nodesize"]);
    var (sectorSize, e6) := ReadValue(fs, base, e5, ["sectorsize"]);
    ValueStep(fs, base, e5, ["sectorsize"]);
    var (rsvReserved, e7) := ReadValue(fs, base, e6, ["allocation", "global_rsv_reserved"]);
    ValueStep(fs, base, e6, ["allocation", "global_rsv_reserved"]);
    var (rsvSize, e8) := ReadValue(fs, base, e7, ["allocation", "global_rsv_size"]);
    ValueStep(fs, base, e7, ["allocation", "global_rsv_size"]);
    var (data, e9) := ReadAllocationStats(fs, base, e8, devCount, ["allocation", "data"]);
    ClassStep(fs, base, e8, devCount, ["allocation", "data"]);
    var (metadata, e10) := ReadAllocationStats(fs, base, e9, devCount, ["allocation", "metadata"]);
    ClassStep(fs, base, e9, devCount, ["allocation", "metadata"]);
    var (system, e11) := ReadAllocationStats(fs, base, e10, devCount, ["allocation", "system"]);
    ClassStep(fs, base, e10, devCount, ["allocation", "system"]);
  }

  /** `GetStats` succeeds exactly on a readable volume, and then returns its statistics. */
  lemma GetStatsOk(fs: Tree, base: Path)
    ensures GetStats(fs, base).1.None? <==> VolumeReadable(fs, base)
    ensures VolumeReadable(fs, base) ==> GetStats(fs, base).0 == VolumeAt(fs, base)
  {
    VolumeOk(fs, base);
  }

  /**
    `FS.Stats` over volume directories succeeds exactly when every volume is
    readable, and then gives each volume's statistics, in order, named
    after its directory.
   */
  lemma StatsOk(fs: Tree, matches: seq<Path>)
    ensures CollectStats(Volume(fs), matches).Success? <==> forall i :: 0 <= i < |matches| ==> VolumeReadable(fs, matches[i])
    ensures CollectStats(Volume(fs), matches).Success? ==>
              && |CollectStats(Volume(fs), matches).value| == |matches|
              && forall i :: 0 <= i < |matches| ==>
                   CollectStats(Volume(fs), matches).value[i] == VolumeAt(fs, matches[i]).(uuid := Base(matches[i]))
  {
    CollectStatsSpec(Volume(fs), matches);
    forall i | 0 <= i < |matches|
      ensures Volume(fs)(matches[i]).1.None? <==> VolumeReadable(fs, matches[i])
      ensures VolumeReadable(fs, matches[i]) ==> Volume(fs)(matches[i]).0 == VolumeAt(fs, matches[i])
    {
      GetStatsOk(fs, matches[i]);
    }
  }
}
