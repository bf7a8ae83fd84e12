/**
  The btrfs statistics reader as the source writes it: a `reader` object
  whose methods update its latched error and device count in place. Each
  method is proved to do what the matching function of `ReaderModel` says.
 */
module BtrfsReader {
  import opened Wrappers
  import opened Strings
  import opened Strconv
  import opened FileTree
  import opened BtrfsTypes
  import M = ReaderModel

  class Reader {
    /** The tree every call of this reader observes. */
    const fs: Tree
    var path: Path
    var err: Option<M.Error>
    var devCount: int

    constructor (fs: Tree, path: Path, devCount: int)
      ensures this.fs == fs && this.path == path
      ensures err == None && this.devCount == devCount
    {
      this.fs := fs;
      this.path := path;
      this.err := None;
      this.devCount := devCount;
    }

    method Exists(p: Path) returns (b: bool)
      modifies this`err
      ensures (b, err) == M.Exists(fs, path, old(err), p)
    {
      var e := Stat(fs, path + p);
      if e.None? {
        b := true;
      } else if IsNotExist(e.value) {
        b := false;
      } else {
        err := Some(M.Os(e.value));
        b := false;
      }
    }

    method ReadFile(n: Path) returns (s: string)
      modifies this`err
      ensures (s, err) == M.ReadFile(fs, path, old(err), n)
      ensures old(err).Some? ==> err.Some?
    {
      var (b, e) := FileTree.ReadFile(fs, path + n);
      if e.Some? {
        err := Some(M.Os(e.value));
      }
      s := TrimSpace(b);
    }

    method ReadOptionalValue(n: Path) returns (v: uint64)
      modifies this`err
      ensures (v, err) == M.ReadOptionalValue(fs, path, old(err), n)
    {
      var s := ReadFile(n);
      if err.Some? {
        return 0;
      }
      v := ParseUint(s).0;
    }

    method ReadValue(n: Path) returns (v: uint64)
      modifies this`err
      ensures (v, err) == M.ReadValue(fs, path, old(err), n)
      ensures old(err).Some? ==> v == 0 && err == old(err)
    {
      if err.Some? {
        return 0;
      }
      var s := ReadFile(n);
      if err.Some? {
        return 0;
      }
      var e;
      v, e := ParseUint(s).0, ParseUint(s).1;
      err := M.ParseErr(e);
    }

    method ListFiles(p: Path) returns (names: seq<string>)
      modifies this`err
      ensures (names, err) == M.ListFiles(fs, path, old(err), p)
    {
      var files := ReadDir(fs, path + p);
      if files.Failure? {
        err := Some(M.Os(files.error));
        return [];
      }
      var a := new string[|files.value|];
      for i := 0 to |files.value|
        invariant a[..i] == files.value[..i]
        invariant err == old(err)
      {
        a[i] := files.value[i];
      }
      assert a[..] == a[..|files.value|];
      names := a[..];
      assert names == files.value;
      assert M.ListFiles(fs, path, old(err), p) == (files.value, old(err));
    }

    method ReadAllocationStats(d: Path) returns (a: Option<AllocationStats>)
      modifies this`err
      ensures (a, err) == M.ReadAllocationStats(fs, path, old(err), devCount, d)
    {
      if err.Some? {
        return None;
      }
      var sr := new Reader(fs, path + d, devCount);
      var mayUse := sr.ReadValue(["bytes_may_use"]);
      var pinned := sr.ReadValue(["bytes_pinned"]);
      var readOnly := sr.ReadValue(["bytes_readonly"]);
      var reserved := sr.ReadValue(["bytes_reserved"]);
      var used := sr.ReadValue(["bytes_used"]);
      var diskUsed := sr.ReadValue(["disk_used"]);
      var diskTotal := sr.ReadValue(["disk_total"]);
      var flags := sr.ReadValue(["flags"]);
      var total := sr.ReadValue(["total_bytes"]);
      var totalPinned := sr.ReadValue(["total_bytes_pinned"]);
      var single := sr.ReadLayout("single");
      var dup := sr.ReadLayout("dup");
      var raid0 := sr.ReadLayout("raid0");
      var raid1 := sr.ReadLayout("raid1");
      var raid5 := sr.ReadLayout("raid5");
      var raid6 := sr.ReadLayout("raid6");
      var raid10 := sr.ReadLayout("raid10");
      a := Some(AllocationStats(mayUse, pinned, readOnly, reserved, used, diskUsed, diskTotal, flags, total,
                                totalPinned, single, dup, raid0, raid1, raid5, raid6, raid10));
      err := sr.err;
    }

    method ReadLayout(p: string) returns (l: Option<LayoutUsage>)
      modifies this`err
      ensures (l, err) == M.ReadLayout(fs, path, old(err), devCount, p)
    {
      var present := Exists([p]);
      if !present {
        return None;
      }
      var total := ReadValue([p, "total_bytes"]);
      var used := ReadValue([p, "used_bytes"]);
      l := Some(LayoutUsage(total, used, CalcRatio(p, devCount)));
    }

    method ReadDeviceInfo(d: Path) returns (info: Option<map<string, Device>>)
      modifies this`err
      ensures (info, err) == M.ReadDeviceInfo(fs, path, old(err), d)
    {
      if err.Some? {
        return None;
      }
      var devs := ListFiles(["devices"]);
      ghost var listed := err;
      var m: map<string, Device> := map[];
      for i := 0 to |devs|
        invariant (m, err) == M.DeviceLoop(fs, path, listed, devs[..i])
      {
        var n := devs[i];
        var v := ReadValue(["devices", n, "size"]);
        m := m[n := Device(MulUint64(SectorBytes, v))];
        assert devs[..i + 1][..i] == devs[..i];
      }
      assert devs[..|devs|] == devs;
      info := Some(m);
    }

    method ReadFilesystemStats() returns (s: Stats)
      modifies this`err, this`devCount
      ensures (s, err, devCount) == M.ReadFilesystemStats(fs, path, old(err))
    {
      var devices := ReadDeviceInfo(["devices"]);
      devCount := DeviceCount(devices);
      var volumeLabel := ReadFile(["label"]);
      var features := ListFiles(["features"]);
      var cloneAlignment := ReadValue(["clone_alignment"]);
      var nodeSize := ReadValue(["nodesize"]);
      var sectorSize := ReadValue(["sectorsize"]);
      var rsvReserved := ReadValue(["allocation", "global_rsv_reserved"]);
      var rsvSize := ReadValue(["allocation", "global_rsv_size"]);
      var data := ReadAllocationStats(["allocation", "data"]);
      var metadata := ReadAllocationStats(["allocation", "metadata"]);
      var system := ReadAllocationStats(["allocation", "system"]);
      s := Stats("", volumeLabel, features, cloneAlignment, nodeSize, sectorSize, devices,
                 Allocation(rsvReserved, rsvSize, data, metadata, system));
    }
  }

  /** `GetStats`: the (possibly partial) statistics of one volume and the reader's error. */
  method GetStats(fs: Tree, uuidPath: Path) returns (s: Stats, err: Option<M.Error>)
    ensures (s, err) == M.GetStats(fs, uuidPath)
  {
    var r := new Reader(fs, uuidPath, 0);
    s := r.ReadFilesystemStats();
    err := r.err;
  }

  /**
    The loop of `FS.Stats` over the volume directories `matches`: the first
    volume whose read fails makes the whole call fail with that error and no
    statistics; otherwise one entry per volume, in order, named after the
    last path component.
   */
  method Stats(fs: Tree, matches: seq<Path>) returns (stats: Option<seq<BtrfsTypes.Stats>>, err: Option<M.Error>)
    ensures M.CollectStats(M.Volume(fs), matches).Success? ==>
              stats == Some(M.CollectStats(M.Volume(fs), matches).value) && err == None
    ensures M.CollectStats(M.Volume(fs), matches).Failure? ==>
              stats == None && err == Some(M.CollectStats(M.Volume(fs), matches).error)
  {
    var acc: seq<BtrfsTypes.Stats> := [];
    for i := 0 to |matches|
      invariant M.CollectStats(M.Volume(fs), matches[..i]) == Success(acc)
    {
      var uuid := Base(matches[i]);
      var s, e := GetStats(fs, matches[i]);
      assert matches[..i + 1][..i] == matches[..i];
      assert M.Volume(fs)(matches[i]) == (s, e);
      if e.Some? {
        M.CollectStatsStops(M.Volume(fs), matches, i + 1);
        return None, e;
      }
      s := s.(uuid := uuid);
      acc := acc + [s];
    }
    assert matches[..|matches|] == matches;
    return Some(acc), None;
  }
}
