/**
  The one volume of the repository's test fixture: two devices, four
  features, and data, metadata and system classes of 2 GiB, 1 GiB and
  8 MiB. Any tree laid out that way reads back as the test expects.
 */
module Fixture {
  import opened Wrappers
  import opened Strconv
  import opened FileTree
  import opened BtrfsTypes
  import opened ReaderModel
  import opened ReaderProperties
  import opened VolumeProperties

  const FixtureUuid: string := "0abb23a9-579b-43e6-ad30-227ef47fcb9d"

  /** A readable volume directory named after the fixture's UUID, holding the fixture's counts and totals. */
  predicate IsFixture(fs: Tree, base: Path) {
    && base != [] && base[|base| - 1] == FixtureUuid
    && VolumeReadable(fs, base)
    && |fs[base + ["devices"]].names| == 2
    && fs[base + ["devices"]].names[0] != fs[base + ["devices"]].names[1]
    && |fs[base + ["features"]].names| == 4
    && HoldsUint(fs, base + ["allocation", "data"] + ["total_bytes"], 2147483648)
    && HoldsUint(fs, base + ["allocation", "metadata"] + ["total_bytes"], 1073741824)
    && HoldsUint(fs, base + ["allocation", "system"] + ["total_bytes"], 8388608)
  }

  /** `FS.Stats` on the fixture gives one entry with the UUID, counts and totals the test checks. */
  lemma FixtureStats(fs: Tree, base: Path)
    requires IsFixture(fs, base)
    ensures var r := CollectStats(Volume(fs), [base]);
            && r.Success? && |r.value| == 1
            && r.value[0].uuid == FixtureUuid
            && r.value[0].devices.Some? && |r.value[0].devices.value| == 2
            && |r.value[0].features| == 4
            && r.value[0].allocation.data.Some? && r.value[0].allocation.data.value.totalBytes == 2147483648
            && r.value[0].allocation.metadata.Some? && r.value[0].allocation.metadata.value.totalBytes == 1073741824
            && r.value[0].allocation.system.Some? && r.value[0].allocation.system.value.totalBytes == 8388608
  {
    CollectStatsSingle(Volume(fs), base);
    GetStatsOk(fs, base);
    FixtureVolume(fs, base);
  }

  /** The fixture volume's own statistics, before it is named. */
  lemma FixtureVolume(fs: Tree, base: Path)
    requires IsFixture(fs, base)
    ensures Base(base) == FixtureUuid
    ensures var s := VolumeAt(fs, base);
            && s.devices.Some? && |s.devices.value| == 2
            && |s.features| == 4
            && s.allocation.data.Some? && s.allocation.data.value.totalBytes == 2147483648
            && s.allocation.metadata.Some? && s.allocation.metadata.value.totalBytes == 1073741824
            && s.allocation.system.Some? && s.allocation.system.value.totalBytes == 8388608
  {
    var names := fs[base + ["devices"]].names;
    NameSetSize(names);
    DevicesAtKeys(fs, base, names);
  }
}
