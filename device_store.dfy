/**
 * Persistence of the per-user device identifier (src/connection.rs,
 * `save_device_id` and `load_device_id`).
 *
 * The disk is a value: file contents by path, plus the faults that reads and
 * writes of particular paths run into. A path is its list of components.
 */
module DeviceStore {
  import opened Wrappers

  type Path = seq<string>

  const DEVICE_ID_EXTENSION: string := "device_id"

  /** Only `NotFound` is told apart by the loader; the rest stand for any other kind. */
  datatype ErrorKind = NotFound | PermissionDenied | IsADirectory | StorageFull | OtherKind

  /** An I/O error: its kind and its `{:?}` rendering. */
  datatype IoError = IoError(kind: ErrorKind, debug: string)

  datatype FileSystem = FileSystem(
    files: map<Path, string>,
    readFaults: map<Path, IoError>,
    writeFaults: map<Path, IoError>)

  /** Outcome of a write: the result `std::fs::write` returns and the disk afterwards. */
  datatype WriteOutcome = WriteOutcome(result: Result<(), IoError>, fs: FileSystem)

  const NOT_FOUND: IoError := IoError(NotFound, "Os { code: 2, kind: NotFound, message: \"No such file or directory\" }")

  /** `std::fs::read_to_string`: an injected fault, else the file, else NotFound. */
  function ReadToString(fs: FileSystem, p: Path): Result<string, IoError>
  {
    if p in fs.readFaults then Err(fs.readFaults[p])
    else if p in fs.files then Ok(fs.files[p])
    else Err(NOT_FOUND)
  }

  /** `std::fs::write`: creates or truncates the file, unless a fault is injected. */
  function WriteFile(fs: FileSystem, p: Path, contents: string): WriteOutcome
  {
    if p in fs.writeFaults then WriteOutcome(Err(fs.writeFaults[p]), fs)
    else WriteOutcome(Ok(()), fs.(files := fs.files[p := contents]))
  }

  // ---------------------------------------------------------------------
  // Path derivation as written: `server_path.push(user_name)` followed by
  // `server_path.set_extension("device_id")`.
  // ---------------------------------------------------------------------

  /** Index of the last '.' of a file name, if any. */
  function LastDot(name: string): (r: Option<nat>)
    ensures r.Some? ==> r.value < |name| && name[r.value] == '.'
  {
    LastDotBefore(name, |name|)
  }

  /** Index of the last '.' among the first `n` characters of a name, if any. */
  function LastDotBefore(name: string, n: nat): (r: Option<nat>)
    requires n <= |name|
    ensures r.Some? ==> r.value < n && name[r.value] == '.'
  {
    if n == 0 then None
    else if name[n - 1] == '.' then Some(n - 1)
    else LastDotBefore(name, n - 1)
  }

  /** `LastDot` finds the last '.' of a name, and finds none only in a name
      without any. */
  lemma LastDotIsLast(name: string)
    ensures var r := LastDot(name);
      && (r.Some? ==> forall i :: r.value < i < |name| ==> name[i] != '.')
      && (r.None? ==> forall i :: 0 <= i < |name| ==> name[i] != '.')
  {
    LastDotBeforeIsLast(name, |name|);
  }

  lemma {:induction false} LastDotBeforeIsLast(name: string, n: nat)
    requires n <= |name|
    ensures var r := LastDotBefore(name, n);
      && (r.Some? ==> forall i :: r.value < i < n ==> name[i] != '.')
      && (r.None? ==> forall i :: 0 <= i < n ==> name[i] != '.')
  {
    if n > 0 && name[n - 1] != '.' {
      LastDotBeforeIsLast(name, n - 1);
    }
  }

  /** The parent-directory component "..". */
  predicate IsParentDir(name: string)
  {
    |name| == 2 && name[0] == '.' && name[1] == '.'
  }

  /** `Path::file_stem` of a file name: the part before the last '.', unless
      that dot is the first character or the name is "..". */
  function FileStem(name: string): string
  {
    if IsParentDir(name) then name
    else match LastDot(name)
      case None => name
      case Some(i) => if i == 0 then name else name[..i]
  }

  /** `PathBuf::push` of one relative component; pushing "" only adds a
      trailing separator, which leaves the components as they were. */
  function Push(dir: Path, name: string): Path
  {
    if |name| == 0 then dir else dir + [name]
  }

  /** `PathBuf::set_extension`: a path without a file name is left alone;
      otherwise the file name is cut back to its stem and ".ext" appended. */
  function SetExtension(p: Path, ext: string): Path
  {
    if |p| == 0 || IsParentDir(p[|p| - 1]) then p
    else p[..|p| - 1] + [FileStem(p[|p| - 1]) + (if |ext| == 0 then "" else "." + ext)]
  }

  /** The device-id path exactly as the source derives it. */
  function WrittenDeviceIdPath(serverPath: Path, userName: string): Path
  {
    SetExtension(Push(serverPath, userName), DEVICE_ID_EXTENSION)
  }

  /** The device-id path as intended: `<server_path>/<user_name>.device_id`. */
  function DeviceIdPath(serverPath: Path, userName: string): Path
  {
    serverPath + [userName + "." + DEVICE_ID_EXTENSION]
  }

  /** For a user name with no '.' after its first character, the derivation as
      written gives the intended path. */
  lemma {:induction false} WrittenPathAgreesForPlainNames(serverPath: Path, userName: string)
    requires userName != "" && userName != "."
    requires forall i :: 0 < i < |userName| ==> userName[i] != '.'
    ensures WrittenDeviceIdPath(serverPath, userName) == DeviceIdPath(serverPath, userName)
  {
    assert !IsParentDir(userName) by {
      if |userName| == 2 { assert userName[1] != '.'; }
    }
    var p := Push(serverPath, userName);
    assert p[..|p| - 1] == serverPath;
    var d := LastDot(userName);
    LastDotIsLast(userName);
    assert d.Some? ==> d.value == 0;
    assert FileStem(userName) == userName;
    assert SetExtension(p, DEVICE_ID_EXTENSION) == serverPath + [userName + ("." + DEVICE_ID_EXTENSION)];
    assert userName + ("." + DEVICE_ID_EXTENSION) == userName + "." + DEVICE_ID_EXTENSION;
  }

  /** The last dot of `stem + "." + ext`, when `ext` has no dot, is the one
      just after the stem. */
  lemma {:induction false} LastDotBeforeExtension(stem: string, ext: string)
    requires forall i :: 0 <= i < |ext| ==> ext[i] != '.'
    ensures LastDot(stem + "." + ext) == Some(|stem|)
  {
    var name := stem + "." + ext;
    assert name[|stem|] == '.';
    assert forall i :: |stem| < i < |name| ==> name[i] == ext[i - |stem| - 1];
    LastDotIsLast(name);
    assert LastDot(name).Some?;
  }

  /** As written, the part of a user name after its last '.' is thrown away:
      "<stem>.<a>" and "<stem>.<b>" share one device-id file. */
  lemma {:induction false} WrittenPathDropsLastExtension(serverPath: Path, stem: string, a: string, b: string)
    requires stem != "" && a != "" && b != ""
    requires forall i :: 0 <= i < |a| ==> a[i] != '.'
    requires forall i :: 0 <= i < |b| ==> b[i] != '.'
    ensures WrittenDeviceIdPath(serverPath, stem + "." + a) == DeviceIdPath(serverPath, stem)
    ensures WrittenDeviceIdPath(serverPath, stem + "." + b) == DeviceIdPath(serverPath, stem)
  {
    forall ext | ext == a || ext == b
      ensures WrittenDeviceIdPath(serverPath, stem + "." + ext) == DeviceIdPath(serverPath, stem)
    {
      var name := stem + "." + ext;
      LastDotBeforeExtension(stem, ext);
      assert !IsParentDir(name) by { assert |name| >= 3; }
      assert FileStem(name) == stem by { assert name[..|stem|] == stem; }
      var p := Push(serverPath, name);
      assert p[..|p| - 1] == serverPath;
      assert SetExtension(p, DEVICE_ID_EXTENSION) == serverPath + [stem + ("." + DEVICE_ID_EXTENSION)];
      assert stem + ("." + DEVICE_ID_EXTENSION) == stem + "." + DEVICE_ID_EXTENSION;
    }
  }

  /** Two users of one server whose names differ only after the last dot. */
  lemma DottedNamesShareDeviceIdFile(serverPath: Path)
    ensures WrittenDeviceIdPath(serverPath, "john.smith") == WrittenDeviceIdPath(serverPath, "john.doe")
    ensures DeviceIdPath(serverPath, "john.smith") != DeviceIdPath(serverPath, "john.doe")
  {
    WrittenPathDropsLastExtension(serverPath, "john", "smith", "doe");
    assert "john" + "." + "smith" == "john.smith";
    assert "john" + "." + "doe" == "john.doe";
    DeviceIdPathInjective(serverPath, "john.smith", serverPath, "john.doe");
  }

  /** As written, a trailing '.' is cut off too: "john." and "john" share
      one device-id file, and get different files under the intended path. */
  lemma TrailingDotSharesDeviceIdFile(serverPath: Path)
    ensures WrittenDeviceIdPath(serverPath, "john.") == WrittenDeviceIdPath(serverPath, "john")
    ensures DeviceIdPath(serverPath, "john.") != DeviceIdPath(serverPath, "john")
  {
    LastDotBeforeExtension("john", "");
    assert "john" + "." + "" == "john.";
    assert FileStem("john.") == "john" by { assert "john."[..4] == "john"; }
    var p := Push(serverPath, "john.");
    assert p[..|p| - 1] == serverPath;
    assert WrittenDeviceIdPath(serverPath, "john.") == serverPath + ["john" + ("." + DEVICE_ID_EXTENSION)];
    WrittenPathAgreesForPlainNames(serverPath, "john");
    assert "john" + ("." + DEVICE_ID_EXTENSION) == "john" + "." + DEVICE_ID_EXTENSION;
    DeviceIdPathInjective(serverPath, "john.", serverPath, "john");
  }

  /** The intended derivation gives every (server path, user) its own file. */
  lemma {:induction false} DeviceIdPathInjective(dir1: Path, user1: string, dir2: Path, user2: string)
    ensures DeviceIdPath(dir1, user1) == DeviceIdPath(dir2, user2) <==> dir1 == dir2 && user1 == user2
  {
    var p1, p2 := DeviceIdPath(dir1, user1), DeviceIdPath(dir2, user2);
    if p1 == p2 {
      assert |dir1| == |dir2|;
      assert dir1 == p1[..|dir1|] && dir2 == p2[..|dir2|];
      var f1, f2 := p1[|dir1|], p2[|dir2|];
      assert f1 == user1 + "." + DEVICE_ID_EXTENSION && f2 == user2 + "." + DEVICE_ID_EXTENSION;
      assert |user1| == |user2|;
      assert user1 == f1[..|user1|] && user2 == f2[..|user2|];
    }
  }

  // ---------------------------------------------------------------------
  // The two operations.
  // ---------------------------------------------------------------------

  /** A read of `p` fails with an error other than NotFound. */
  predicate ReadFails(fs: FileSystem, p: Path)
  {
    p in fs.readFaults && fs.readFaults[p].kind != NotFound
  }

  /** The body of `load_device_id` once the path is derived: NotFound or an
      empty file mean "no device id", any other read error is returned, and a
      non-empty file is the device id. */
  function LoadFrom(fs: FileSystem, p: Path): Result<Option<string>, IoError>
  {
    match ReadToString(fs, p)
    case Err(e) =>
      if e.kind != NotFound then Err(e) else Ok(None)
    case Ok(contents) =>
      if contents == "" then Ok(None) else Ok(Some(contents))
  }

  /** `load_device_id`, reading the file the source derives. */
  function LoadDeviceId(fs: FileSystem, userName: string, serverPath: Path): (r: Result<Option<string>, IoError>)
    ensures var p := WrittenDeviceIdPath(serverPath, userName);
      r.Err? <==> ReadFails(fs, p)
    ensures var p := WrittenDeviceIdPath(serverPath, userName);
      r.Err? ==> r.error == fs.readFaults[p]
    ensures var p := WrittenDeviceIdPath(serverPath, userName);
      r == Ok(None) <==> !ReadFails(fs, p) && (p in fs.readFaults || p !in fs.files || fs.files[p] == "")
    ensures var p := WrittenDeviceIdPath(serverPath, userName);
      r.Ok? && r.value.Some? <==> p !in fs.readFaults && p in fs.files && fs.files[p] != ""
    ensures var p := WrittenDeviceIdPath(serverPath, userName);
      r.Ok? && r.value.Some? ==> r.value.value == fs.files[p]
  {
    LoadFrom(fs, WrittenDeviceIdPath(serverPath, userName))
  }

  /** `save_device_id`: writes the device id to the file the source derives,
      overwriting it. */
  function SaveDeviceId(fs: FileSystem, userName: string, serverPath: Path, deviceId: string): (w: WriteOutcome)
    ensures var p := WrittenDeviceIdPath(serverPath, userName);
      w.result.Err? <==> p in fs.writeFaults
    ensures var p := WrittenDeviceIdPath(serverPath, userName);
      w.result.Err? ==> w.result.error == fs.writeFaults[p] && w.fs == fs
    ensures var p := WrittenDeviceIdPath(serverPath, userName);
      w.result.Ok? ==> w.fs == fs.(files := fs.files[p := deviceId])
  {
    WriteFile(fs, WrittenDeviceIdPath(serverPath, userName), deviceId)
  }

  /** A successful save followed by a load, with nothing written in between
      and no fault on reading the file, gives back the saved id; an empty id
      reads back as "no device id". */
  lemma SaveThenLoad(fs: FileSystem, userName: string, serverPath: Path, deviceId: string)
    requires SaveDeviceId(fs, userName, serverPath, deviceId).result.Ok?
    requires WrittenDeviceIdPath(serverPath, userName) !in fs.readFaults
    ensures LoadDeviceId(SaveDeviceId(fs, userName, serverPath, deviceId).fs, userName, serverPath)
            == if deviceId == "" then Ok(None) else Ok(Some(deviceId))
  {
  }

  /** Saving one user's device id does not change what is loaded for another
      user of the same server whose name derives a different file. */
  lemma SaveLeavesOtherUsers(fs: FileSystem, userName: string, other: string, serverPath: Path, deviceId: string)
    requires WrittenDeviceIdPath(serverPath, userName) != WrittenDeviceIdPath(serverPath, other)
    ensures LoadDeviceId(SaveDeviceId(fs, userName, serverPath, deviceId).fs, other, serverPath)
            == LoadDeviceId(fs, other, serverPath)
  {
  }

  /** As written, on a disk with no device ids yet, saving "john.smith"'s
      device id makes "john.doe" load it as their own. */
  lemma DottedUsersShareDeviceId(serverPath: Path, deviceId: string)
    requires deviceId != ""
    ensures var fs := FileSystem(map[], map[], map[]);
      && LoadDeviceId(fs, "john.doe", serverPath) == Ok(None)
      && SaveDeviceId(fs, "john.smith", serverPath, deviceId).result.Ok?
      && LoadDeviceId(SaveDeviceId(fs, "john.smith", serverPath, deviceId).fs, "john.doe", serverPath) == Ok(Some(deviceId))
  {
    DottedNamesShareDeviceIdFile(serverPath);
  }

  /** With the intended path, saving one user's device id never changes what
      is loaded for any other user of the same server. */
  lemma IntendedPathKeepsUsersApart(fs: FileSystem, userName: string, other: string, serverPath: Path, deviceId: string)
    requires userName != other
    ensures LoadFrom(WriteFile(fs, DeviceIdPath(serverPath, userName), deviceId).fs, DeviceIdPath(serverPath, other))
            == LoadFrom(fs, DeviceIdPath(serverPath, other))
  {
    DeviceIdPathInjective(serverPath, userName, serverPath, other);
  }
}
