# Btrfs sysfs statistics reader, modelled in Dafny

This project models the statistics reader of the `btrfs` package in
`btrfs/get.go`. The Linux kernel exposes each mounted Btrfs volume as a
directory of small text files under `/sys/fs/btrfs/<uuid>`. The reader
walks that directory and returns one `Stats` record per volume:

- the label and the feature names;
- node size, sector size and clone alignment;
- a map from device name to device size;
- three allocation classes (`data`, `metadata`, `system`), each with ten
  byte counters and the usage of every RAID layout present.

In the source, a `reader` object carries a base path, a latched error
`err` and a device count `devCount`. Its methods update the error as they
go. The device count is set from the number of devices before any
allocation class is read, because the raid5 and raid6 redundancy ratios
depend on it.

The project has three layers.

- **The reader as the source writes it** (`reader.dfy`, module
  `BtrfsReader`). `class Reader` has the fields `path`, `err` and
  `devCount`. One method per reader method updates `err` (and, in
  `ReadFilesystemStats`, `devCount`) in place:
  - `ListFiles` copies the listing through an array in a loop;
  - `ReadDeviceInfo` fills the device map in a loop;
  - module-level `GetStats` uses a fresh reader;
  - module-level `Stats` loops over the volume directories.

  Each method's `ensures` states that its result and the new `err` are
  exactly what the matching function of `ReaderModel` gives for the old
  `err`.
- **The reader as functions** (`reader_model.dfy`, module `ReaderModel`).
  Each method is a pure function from the error latched before the call
  (and the device count, where the method reads it) to the result and the
  error latched after it. `CollectStats` is the `Stats` loop over any
  per-volume read function.
- **What the reader promises**, proved about those functions:
  - `reader_properties.dfy`: one method at a time;
  - `volume.dfy`: a whole volume, with a characterisation in both
    directions of when a read succeeds and what it then returns;
  - `fixture.dfy`: the repository's test volume.

Supporting modules:

- `file_tree.dfy`: the directory tree, plus `os.Stat`, `ioutil.ReadFile`
  and `ioutil.ReadDir` over it.
- `strings.dfy`: `strings.TrimSpace`.
- `strconv.dfy`: `strconv.ParseUint` in base 10, 64 bits, with
  `FormatUint` as its inverse.
- `btrfs_types.dfy`: the result records and `calcRatio`.

A tree is a finite map from paths to entries. `path.Join(r.path, n)` is
sequence concatenation of path components. A file is `File(content)`, a
directory is `Dir(names)` with its listing in the tree's order, and an
entry that exists but cannot be accessed is `Failing(code)`.

Where this model and a plain reading of the package's purpose might
differ, the model follows the code:

- A missing file read by `readFile` is an error that latches, not a zero.
- Malformed numbers latch a parse error in `readValue`. Only
  `readOptionalValue`, which nothing in `get.go` calls, ignores them.
- Each allocation class is probed for exactly the seven layout names
  `single`, `dup`, `raid0`, `raid1`, `raid5`, `raid6` and `raid10`. The
  class directory is not listed.
- A class has ten byte counters.
- `quota_override` and `metadata_uuid` are never read. The UUID is the
  directory's base name, set by `Stats`.
- `GetStats` returns the partial statistics together with the error.
  Only `Stats` drops them.
- `readDeviceInfo` ignores its parameter and always lists `devices`.
- `exists`, `readFile` and `listFiles` do not check the latched error
  first. After a failure they overwrite it with their own error.
  `readFile` reads even when an error is latched.

## Model

| member | source | states |
|---|---|---|
| `BtrfsReader.Reader.constructor` | btrfs/get.go:72 | a new reader has the given tree, path and device count, and no error |
| `BtrfsReader.Reader.Exists` | btrfs/get.go:85-95 | the method's answer and new `err` are `ReaderModel.Exists` of the old `err` |
| `ReaderProperties.ExistsSpec` | btrfs/get.go:85-95 | true exactly when the lookup succeeds; a missing path gives false with `err` untouched; any other failure gives false and latches the `stat` error |
| `BtrfsReader.Reader.ReadFile` | btrfs/get.go:98-104 | result and new `err` are `ReaderModel.ReadFile` of the old `err`; an error already latched stays latched |
| `ReaderProperties.ReadFileSpec` | btrfs/get.go:98-104 | a regular file gives its trimmed content and leaves `err` alone; any failure, a missing file included, gives "" and latches that failure over whatever was latched; a later success never clears an earlier error |
| `BtrfsReader.Reader.ReadOptionalValue` | btrfs/get.go:108-118 | result and new `err` are `ReaderModel.ReadOptionalValue` of the old `err` |
| `ReaderProperties.ReadOptionalValueTolerant` | btrfs/get.go:108-118 | on a regular file with nothing latched, it never latches: decimal text gives its value, other text gives 0, too large a number gives the 64-bit maximum |
| `ReaderProperties.ReadOptionalValueLatchesReadErrors` | btrfs/get.go:110-113 | a file that cannot be read gives 0 and latches the read error, even if an error was latched already |
| `BtrfsReader.Reader.ReadValue` | btrfs/get.go:121-135 | result and new `err` are `ReaderModel.ReadValue` of the old `err`; with an error latched it returns 0 and leaves `err` unchanged |
| `ReaderProperties.ReadValueLatched` | btrfs/get.go:122-124 | with an error latched, the answer is 0, `err` is unchanged, and the result is the same for every tree |
| `ReaderProperties.ReadValueParses` | btrfs/get.go:126-134 | on a regular file with nothing latched, success exactly when the trimmed text is a non-empty, in-range decimal digit string, and then its value; otherwise the parse error is latched |
| `ReaderProperties.ReadValueUnreadable` | btrfs/get.go:127-130 | a file that cannot be read gives 0 and latches its read error |
| `ReaderProperties.ReadValueOfDecimal` | btrfs/get.go:126-134 | a file holding any 64-bit value in decimal, padded with white space, reads back as exactly that value with no error |
| `BtrfsReader.Reader.ListFiles` | btrfs/get.go:138-150 | the loop-filled name slice and new `err` are `ReaderModel.ListFiles` of the old `err` |
| `ReaderProperties.ListFilesSpec` | btrfs/get.go:138-150 | a directory gives its names in order with `err` untouched; anything else gives no names and latches the failure |
| `BtrfsReader.Reader.ReadAllocationStats` | btrfs/get.go:153-190 | result and new `err` are `ReaderModel.ReadAllocationStats`: a child reader on `path + d` that starts with no error and the parent's device count, whose error becomes the parent's |
| `ReaderProperties.ReadAllocationStatsSpec` | btrfs/get.go:153-190 | with an error latched, nil and no change, for every tree; otherwise statistics are returned and the parent's error is the child's |
| `ReaderProperties.AllocationRatios` | btrfs/get.go:159-201 | every layout a class reports carries the ratio for its own name on the device count the child inherited |
| `VolumeProperties.AllocationOk` | btrfs/get.go:159-187 | the child reader ends without error exactly when all ten counters and every present layout's two counters are readable, and then returns each value as its file holds it |
| `VolumeProperties.ClassStep` | btrfs/get.go:153-190 | `readAllocationStats` ends without error exactly when nothing was latched and the class is readable, and then returns that class's statistics |
| `BtrfsReader.Reader.ReadLayout` | btrfs/get.go:193-204 | result and new `err` are `ReaderModel.ReadLayout` of the old `err` and the reader's device count |
| `ReaderProperties.ReadLayoutSpec` | btrfs/get.go:193-204 | an absent layout gives nil and changes nothing; a usage is returned exactly when the lookup succeeds, with the ratio for its name; a latched error stays latched |
| `ReaderProperties.ReadLayoutClean` | btrfs/get.go:193-204 | a present layout whose two counter files hold numbers gives those counters and its ratio, with no error |
| `VolumeProperties.ReadLayoutOk` | btrfs/get.go:193-204 | with nothing latched, `readLayout` ends without error exactly when the layout is absent or present with two readable counters, and then returns the usage its files hold |
| `BtrfsTypes.CalcRatio` | btrfs/get.go:207-219 | 1 for single and raid0; 2 for dup, raid1 and raid10; devCount/(devCount-1) for raid5 and devCount/(devCount-2) for raid6; 0 for any other name |
| `BtrfsTypes.RatioZeroIff` | btrfs/get.go:207-219 | the ratio is 0 exactly for unknown names and for a parity layout on zero devices |
| `BtrfsTypes.ParityRatioBounds` | btrfs/get.go:213-216 | with more devices than parity stripes, the parity ratio lies strictly above 1 and at most parity + 1 |
| `BtrfsTypes.ParityRatioDecreasing` | btrfs/get.go:213-216 | each further device strictly lowers a parity layout's ratio |
| `BtrfsTypes.ParityRatioUnguarded` | btrfs/get.go:213-216 | the source does not guard the division: on as many devices as parity stripes the divisor is 0, and on fewer the ratio is negative |
| `BtrfsTypes.RatioExamples` | btrfs/get.go:213-216 | raid5 on 3 devices is 3/2 and raid6 on 4 devices is 2 |
| `BtrfsTypes.MulUint64` | btrfs/get.go:231 | uint64 multiplication wraps modulo 2^64 and is exact when the product fits |
| `BtrfsReader.Reader.ReadDeviceInfo` | btrfs/get.go:222-236 | the loop-filled map and new `err` are `ReaderModel.ReadDeviceInfo` of the old `err` |
| `ReaderModel.DeviceLoop` | btrfs/get.go:228-233 | the map's keys are exactly the listed names; with an error latched every listed device is still entered, with size 0 |
| `ReaderProperties.ReadDeviceInfoSpec` | btrfs/get.go:222-236 | nil with no change when an error is latched; otherwise a map whose keys are exactly the listed names; a failed listing gives an empty map and latches the failure |
| `ReaderProperties.NameSetSize` | btrfs/get.go:228-233 | distinct listed names give as many map entries as names |
| `VolumeProperties.DeviceLoopOk` | btrfs/get.go:228-233 | the loop, started without error, ends without error exactly when every listed device's `size` file is readable, and then maps each name to 512 times its sector count |
| `VolumeProperties.DevicesStep` | btrfs/get.go:222-236 | `readDeviceInfo` ends without error exactly when nothing was latched, `devices` lists and every size is readable, and then returns that map |
| `BtrfsReader.Reader.ReadFilesystemStats` | btrfs/get.go:239-266 | the statistics, new `err` and new `devCount` are `ReaderModel.ReadFilesystemStats` of the old `err` |
| `ReaderProperties.RatiosUseDeviceCount` | btrfs/get.go:241-262 | the device count is set to the size of the device map, and every layout of every class carries the ratio for that count |
| `ReaderProperties.LatchedFilesystemStats` | btrfs/get.go:239-266 | with an error latched from the start, label and features are still read, every number is 0, devices and classes are nil, the device count is 0, and an error is latched at the end |
| `VolumeProperties.VolumeOk` | btrfs/get.go:239-266 | a fresh reader ends without error exactly when every file and directory it reads is readable, and then returns the volume's statistics as its files hold them |
| `BtrfsReader.GetStats` | btrfs/get.go:71-76 | the statistics, possibly partial, and the error are `ReaderModel.GetStats`: those of a fresh reader on the path |
| `VolumeProperties.GetStatsOk` | btrfs/get.go:71-76 | `GetStats` reports no error exactly on a readable volume, and then returns that volume's statistics |
| `BtrfsReader.Stats` | btrfs/get.go:53-67 | the loop over the volume directories returns the statistics and no error when `CollectStats` succeeds, and nil and the first error when it fails |
| `ReaderModel.CollectStatsSpec` | btrfs/get.go:53-67 | the loop succeeds exactly when every volume's read succeeds, and then gives one entry per volume, in order, with its UUID set to the path's base name; a failure carries the error of the first volume that failed |
| `ReaderModel.CollectStatsStops` | btrfs/get.go:58-61 | once a prefix of the volumes has failed, later volumes do not affect the result |
| `ReaderModel.CollectStatsSingle` | btrfs/get.go:53-67 | over one volume, the loop gives that volume's error, or its statistics named after the directory |
| `VolumeProperties.StatsOk` | btrfs/get.go:53-67 | `Stats` succeeds exactly when every volume is readable, and then returns each volume's statistics in order, named after its directory |
| `Fixture.FixtureVolume` | btrfs/get_test.go:33-41 | a readable volume with the fixture's device list, feature count and totals has 2 devices, 4 features and class totals 2147483648, 1073741824 and 8388608 |
| `Fixture.FixtureStats` | btrfs/get_test.go:23-76 | `Stats` on the fixture gives exactly one entry, whose UUID, device and feature counts and class totals are what the test expects |
| `Strconv.ParseUintOk` | btrfs/get.go:133 | `strconv.ParseUint` succeeds exactly on non-empty, all-digit text whose value fits in 64 bits, and then returns that value |
| `Strconv.ParseUintErrorValue` | btrfs/get.go:116 | a syntax error comes with 0 and a range error with the 64-bit maximum; there is no other outcome |
| `Strconv.ParseUintRange` | btrfs/get.go:133 | a digit string too large for 64 bits is a range error, never truncated |
| `Strconv.ParseFormatRoundTrip` | btrfs/get.go:133 | parsing the decimal rendering of any 64-bit value gives that value back |
| `Strings.TrimSpaceShape` | btrfs/get.go:103 | `strings.TrimSpace` removes a white-space prefix and suffix and leaves text that neither starts nor ends with white space |
| `Strings.TrimSpacePadded` | btrfs/get.go:103 | text that neither starts nor ends with white space, padded with any white space, trims back to itself |
| `Strings.TrimSpaceIdempotent` | btrfs/get.go:103 | trimming twice is trimming once |

## Left out

- Real file-system access. `os.Stat`, `ioutil.ReadFile` and `ioutil.ReadDir` are functions over a map from paths to entries.
- Failure kinds. A failing entry stands for every failure other than "not found": permission denied, I/O error, and so on.
- Paths through a regular file. `ENOTDIR` for such a path is not modelled: the path is simply absent from the tree.
- Partial reads. `ioutil.ReadFile` on a failing entry gives no content; any partial content is not modelled.
- Listing order. `ioutil.ReadDir` sorts by name; the model takes the tree's listing order as given. Since listings come from a map, a repeated name keeps one entry.
- Mount points. `NewFS` and the `internal/fs` mount-point handling (btrfs/get.go:33-44) call into a package that is not part of this model.
- Globbing. `filepath.Glob` in `Stats` (btrfs/get.go:48) is a library call: `Stats` takes the list of matched directories as input.
- Floating point. The ratio is an exact rational `Ratio(num, den)`, compared by cross-multiplication. Go's float results for the unguarded parity divisions (infinity, negative values) are represented by a zero or negative denominator instead.
- Unicode trimming. `strings.TrimSpace` is restricted to ASCII white space.
- Path normalisation. `path.Join`'s cleaning (`.`, `..`, repeated slashes) is not modelled; `"devices/" + n + "/size"` is the three components `devices`, `n`, `size`.
- Nil references. `*Stats`, `*AllocationStats`, `*LayoutUsage` and nil maps are values and `Option`s. A nil feature slice (failed listing) and an empty one are both `[]`.
- The types file. The result types come from `btrfs/btrfs.go`, which is not part of this model; their fields are as `get.go` fills them. `Label` is named `volumeLabel`, because `label` is a Dafny keyword.
- Errors. A Go error is represented by the path error or parse error that caused it. Its message text is not modelled.
