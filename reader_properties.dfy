/**
  What the reader promises, proved about the functions of `ReaderModel`:
  when each method reads, when it latches or overwrites the error, and what
  it returns.
 */
module ReaderProperties {
  import opened Wrappers
  import opened Strings
  import opened Strconv
  import opened FileTree
  import opened BtrfsTypes
  import opened ReaderModel

  /** `exists` is true exactly when the lookup succeeds; only a failure other than not-found latches. */
  lemma ExistsSpec(fs: Tree, base: Path, err: Option<Error>, p: Path)
    ensures Exists(fs, base, err, p).0 <==> base + p in fs && !fs[base + p].Failing?
    ensures base + p !in fs ==> Exists(fs, base, err, p) == (false, err)
    ensures base + p in fs && fs[base + p].Failing? ==>
              Exists(fs, base, err, p) == (false, Some(Os(PathError("stat", base + p, Errno(fs[base + p].code)))))
    ensures Exists(fs, base, err, p).0 ==> Exists(fs, base, err, p).1 == err
  {
  }

  /**
    `readFile` gives the trimmed content of a regular file and leaves the
    error alone; every failure, not-found included, latches that failure
    (whatever was latched before) and gives the empty string. So a later
    successful read never clears an earlier error.
   */
  lemma ReadFileSpec(fs: Tree, base: Path, err: Option<Error>, n: Path)
    ensures base + n in fs && fs[base + n].File? ==> ReaderModel.ReadFile(fs, base, err, n) == (TrimSpace(fs[base + n].content), err)
    ensures !(base + n in fs && fs[base + n].File?) ==>
              ReaderModel.ReadFile(fs, base, err, n) == ("", Some(Os(FileTree.ReadFile(fs, base + n).1.value)))
    ensures base + n !in fs ==> ReaderModel.ReadFile(fs, base, err, n).1 == Some(Os(PathError("open", base + n, ENOENT)))
    ensures err.Some? ==> ReaderModel.ReadFile(fs, base, err, n).1.Some?
  {
    assert TrimSpace("") == "";
  }

  /** With an error latched, `readValue` answers 0, changes nothing and does not look at the tree. */
  lemma ReadValueLatched(fs: Tree, other: Tree, base: Path, err: Option<Error>, n: Path)
    requires err.Some?
    ensures ReadValue(fs, base, err, n) == (0, err)
    ensures ReadValue(other, base, err, n) == ReadValue(fs, base, err, n)
  {
  }

  /**
    On a regular file and no latched error, `readValue` succeeds exactly when
    the trimmed content is a non-empty, in-range decimal digit string, and
    then returns its value; otherwise it latches the parse error of that text.
   */
  lemma ReadValueParses(fs: Tree, base: Path, err: Option<Error>, n: Path)
    requires err.None? && base + n in fs && fs[base + n].File?
    ensures var t := TrimSpace(fs[base + n].content);
            && (ReadValue(fs, base, err, n).1.None? <==> IsUint64Text(t))
            && (IsUint64Text(t) ==> ReadValue(fs, base, err, n) == (DigitsValue(t), err))
            && (!IsUint64Text(t) ==> ReadValue(fs, base, err, n).1 == ParseErr(ParseUint(t).1))
            && (!IsUint64Text(t) ==> ReadValue(fs, base, err, n).1.value.Num?)
  {
    ParseUintOk(TrimSpace(fs[base + n].content));
  }

  /** A file that cannot be read latches its error in `readValue`, which answers 0. */
  lemma ReadValueUnreadable(fs: Tree, base: Path, err: Option<Error>, n: Path)
    requires err.None? && !(base + n in fs && fs[base + n].File?)
    ensures ReadValue(fs, base, err, n) == (0, Some(Os(FileTree.ReadFile(fs, base + n).1.value)))
  {
  }

  /** A file whose content is any 64-bit value in decimal, padded with white space, reads back as that value. */
  lemma ReadValueOfDecimal(fs: Tree, base: Path, err: Option<Error>, n: Path, lead: string, v: uint64, trail: string)
    requires err.None? && AllSpace(lead) && AllSpace(trail)
    requires base + n in fs && fs[base + n] == File(lead + FormatUint(v) + trail)
    ensures HoldsUint(fs, base + n, v)
    ensures ReadValue(fs, base, err, n) == (v, err)
  {
    DecimalUnpadded(v);
    TrimSpacePadded(lead, FormatUint(v), trail);
    ParseFormatRoundTrip(v);
  }

  /** Decimal digits are not white space. */
  lemma DecimalUnpadded(v: nat)
    ensures Unpadded(FormatUint(v))
  {
    var s := FormatUint(v);
    assert IsDigit(s[0]) && IsDigit(s[|s| - 1]);
  }

  /**
    `readOptionalValue` on a regular file with no latched error never
    latches: unparsable text answers 0, too large a number answers the
    64-bit maximum (what `strconv.ParseUint` returns with a range error).
   */
  lemma ReadOptionalValueTolerant(fs: Tree, base: Path, err: Option<Error>, n: Path)
    requires err.None? && base + n in fs && fs[base + n].File?
    ensures var t := TrimSpace(fs[base + n].content);
            && ReadOptionalValue(fs, base, err, n).1 == err
            && (IsUint64Text(t) ==> ReadOptionalValue(fs, base, err, n).0 == DigitsValue(t))
            && (ParseUint(t).1 == Some(NumError(t, ErrSyntax)) ==> ReadOptionalValue(fs, base, err, n).0 == 0)
            && (ParseUint(t).1 == Some(NumError(t, ErrRange)) ==> ReadOptionalValue(fs, base, err, n).0 == MaxUint64)
  {
    var t := TrimSpace(fs[base + n].content);
    ParseUintOk(t);
    ParseUintErrorValue(t);
  }

  /**
    `readOptionalValue` still latches read errors, and since it does not
    check first it reads even with an error latched, overwriting that error
    when the read fails.
   */
  lemma ReadOptionalValueLatchesReadErrors(fs: Tree, base: Path, err: Option<Error>, n: Path)
    requires !(base + n in fs && fs[base + n].File?)
    ensures ReadOptionalValue(fs, base, err, n) == (0, Some(Os(FileTree.ReadFile(fs, base + n).1.value)))
  {
  }

  /** `listFiles` gives the directory's names in the tree's order, or latches its failure and gives none. */
  lemma ListFilesSpec(fs: Tree, base: Path, err: Option<Error>, p: Path)
    ensures base + p in fs && fs[base + p].Dir? ==> ListFiles(fs, base, err, p) == (fs[base + p].names, err)
    ensures !(base + p in fs && fs[base + p].Dir?) ==>
              ListFiles(fs, base, err, p) == ([], Some(Os(ReadDir(fs, base + p).error)))
  {
  }

  /**
    `readLayout` reads nothing and changes nothing for an absent layout; a
    present layout gives its two counters and the ratio for its name on the
    reader's device count.
   */
  lemma ReadLayoutSpec(fs: Tree, base: Path, err: Option<Error>, devCount: int, p: string)
    ensures base + [p] !in fs ==> ReadLayout(fs, base, err, devCount, p) == (None, err)
    ensures ReadLayout(fs, base, err, devCount, p).0.Some? <==> base + [p] in fs && !fs[base + [p]].Failing?
    ensures ReadLayout(fs, base, err, devCount, p).0.Some? ==>
              ReadLayout(fs, base, err, devCount, p).0.value.ratio == CalcRatio(p, devCount)
    ensures err.Some? ==> ReadLayout(fs, base, err, devCount, p).1.Some?
  {
  }

  /** A present layout whose two counter files hold numbers reads cleanly. */
  lemma ReadLayoutClean(fs: Tree, base: Path, devCount: int, p: string, total: uint64, used: uint64)
    requires base + [p] in fs && fs[base + [p]].Dir?
    requires HoldsUint(fs, base + [p, "total_bytes"], total) && HoldsUint(fs, base + [p, "used_bytes"], used)
    ensures ReadLayout(fs, base, None, devCount, p) == (Some(LayoutUsage(total, used, CalcRatio(p, devCount))), None)
  {
    assert base + [p] + ["total_bytes"] == base + [p, "total_bytes"];
  }

  /**
    `readAllocationStats` reads nothing and changes nothing with an error
    latched; otherwise the parent's error becomes the child reader's, which
    started error-free, so a clean child clears nothing and a failing child
    latches its failure.
   */
  lemma ReadAllocationStatsSpec(fs: Tree, other: Tree, base: Path, err: Option<Error>, devCount: int, d: Path)
    ensures err.Some? ==> ReadAllocationStats(fs, base, err, devCount, d) == (None, err)
    ensures err.Some? ==> ReadAllocationStats(other, base, err, devCount, d) == ReadAllocationStats(fs, base, err, devCount, d)
    ensures err.None? ==> ReadAllocationStats(fs, base, err, devCount, d).0.Some?
    ensures err.None? ==> ReadAllocationStats(fs, base, err, devCount, d).1 == AllocationOf(fs, base + d, devCount).1
  {
  }

  /** Every layout a class reports carries the ratio for the device count the child reader inherited. */
  lemma AllocationRatios(fs: Tree, dir: Path, devCount: int)
    ensures RatiosFor(AllocationOf(fs, dir, devCount).0, devCount)
  {
  }

  /**
    `readDeviceInfo` reads nothing with an error latched. Otherwise its map
    has exactly the listed names as keys; a listing that fails latches its
    error and gives an empty map, not a nil one.
   */
  lemma ReadDeviceInfoSpec(fs: Tree, base: Path, err: Option<Error>, d: Path)
    ensures err.Some? ==> ReadDeviceInfo(fs, base, err, d) == (None, err)
    ensures err.None? && base + ["devices"] in fs && fs[base + ["devices"]].Dir? ==>
              && ReadDeviceInfo(fs, base, err, d).0.Some?
              && ReadDeviceInfo(fs, base, err, d).0.value.Keys == NameSet(fs[base + ["devices"]].names)
    ensures err.None? && !(base + ["devices"] in fs && fs[base + ["devices"]].Dir?) ==>
              ReadDeviceInfo(fs, base, err, d) == (Some(map[]), Some(Os(ReadDir(fs, base + ["devices"]).error)))
  {
  }

  /** Distinct names give one device each. */
  lemma {:induction false} NameSetSize(names: seq<string>)
    requires forall i, j :: 0 <= i < j < |names| ==> names[i] != names[j]
    ensures |NameSet(names)| == |names|
  {
    if names != [] {
      var init := names[..|names| - 1];
      var n := names[|names| - 1];
      NameSetSize(init);
      assert NameSet(names) == NameSet(init) + {n};
      assert n !in NameSet(init);
    }
  }

  /**
    `readFilesystemStats` sets the device count to the size of the device
    map before reading any allocation class, so every layout ratio of every
    class is computed on the number of devices listed.
   */
  lemma RatiosUseDeviceCount(fs: Tree, base: Path, err: Option<Error>)
    ensures var (s, _, devCount) := ReadFilesystemStats(fs, base, err);
            && devCount == DeviceCount(s.devices)
            && (s.allocation.data.Some? ==> RatiosFor(s.allocation.data.value, devCount))
            && (s.allocation.metadata.Some? ==> RatiosFor(s.allocation.metadata.value, devCount))
            && (s.allocation.system.Some? ==> RatiosFor(s.allocation.system.value, devCount))
  {
    var (devices, e1) := ReadDeviceInfo(fs, base, err, ["devices"]);
    var devCount := DeviceCount(devices);
    var (volumeLabel, e2) := ReaderModel.ReadFile(fs, base, e1, ["label"]);
    var (features, e3) := ListFiles(fs, base, e2, ["features"]);
    var (cloneAlignment, e4) := ReadValue(fs, base, e3, ["clone_alignment"]);
    var (nodeSize, e5) := ReadValue(fs, base, e4, ["nodesize"]);
    var (sectorSize, e6) := ReadValue(fs, base, e5, ["sectorsize"]);
    var (rsvReserved, e7) := ReadValue(fs, base, e6, ["allocation", "global_rsv_reserved"]);
    var (rsvSize, e8) := ReadValue(fs, base, e7, ["allocation", "global_rsv_size"]);
    ClassRatios(fs, base, e8, devCount, ["allocation", "data"]);
    var (data, e9) := ReadAllocationStats(fs, base, e8, devCount, ["allocation", "data"]);
    ClassRatios(fs, base, e9, devCount, ["allocation", "metadata"]);
    var (metadata, e10) := ReadAllocationStats(fs, base, e9, devCount, ["allocation", "metadata"]);
    ClassRatios(fs, base, e10, devCount, ["allocation", "system"]);
  }

  /** A class read by `readAllocationStats` carries the ratios for the device count it was given. */
  lemma ClassRatios(fs: Tree, base: Path, err: Option<Error>, devCount: int, d: Path)
    ensures ReadAllocationStats(fs, base, err, devCount, d).0.Some? ==>
              RatiosFor(ReadAllocationStats(fs, base, err, devCount, d).0.value, devCount)
  {
    AllocationRatios(fs, base + d, devCount);
  }

  /**
    With an error latched before it starts, `readFilesystemStats` still
    reads the label and the features (those two do not check), but every
    number is 0, the devices and the allocation classes are nil, the device
    count is 0 and an error is still latched at the end.
   */
  lemma LatchedFilesystemStats(fs: Tree, base: Path, err: Option<Error>)
    requires err.Some?
    ensures var (s, err', devCount) := ReadFilesystemStats(fs, base, err);
            && s.devices.None? && devCount == 0
            && s.volumeLabel == ReaderModel.ReadFile(fs, base, err, ["label"]).0
            && s.features == ListFiles(fs, base, err, ["features"]).0
            && s.cloneAlignment == 0 && s.nodeSize == 0 && s.sectorSize == 0
            && s.allocation == Allocation(0, 0, None, None, None)
            && err'.Some?
  {
  }
}
