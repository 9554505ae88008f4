/**
 The file writer of the setup tool: each planned change is written in turn, and the first
 failure rolls the earlier ones back in reverse.  Every file operation may fail; the fault
 script of the disk decides which.
 */
module SetupRun {
  import opened Prelude

  /** A path inside the project, by components. */
  type FilePath = seq<string>

  datatype File = File(content: string, mode: nat)

  /** A planned change; `before` is None for a file to be created. */
  datatype Change = Change(path: FilePath, before: Option<string>, after: string, mode: nat)

  /** A failed write leaves an arbitrary part of the data behind. */
  datatype Fault = Works | Fails(partial: string)

  /** What the joined error reports. */
  datatype Failure =
    | WriteFailed(path: FilePath)      // the change itself could not be written
    | CleanupFailed(path: FilePath)    // a partly written new file could not be removed
    | UndoFailed(path: FilePath)       // an earlier change could not be rolled back

  /** How many of the coming operations will fail. */
  function Faults(script: seq<Fault>): nat {
    if script == [] then 0 else (if script[0].Fails? then 1 else 0) + Faults(script[1..])
  }

  // -------------------------------------------------------------------- disk

  class Disk {
    var files: map<FilePath, File>
    var temps: map<nat, File>        // the .setup-* files, by number
    var nextTemp: nat
    var script: seq<Fault>           // outcomes of the coming operations; past its end all succeed
    var stuckTemps: set<nat>         // temporary files whose removal failed

    ghost predicate Valid()
      reads this
    {
      forall n | n in temps :: n < nextTemp
    }

    method Next() returns (fault: Fault)
      modifies this`script
      ensures fault == (if old(script) == [] then Works else old(script)[0])
      ensures script == if old(script) == [] then [] else old(script)[1..]
      ensures Faults(old(script)) == Faults(script) + if fault.Fails? then 1 else 0
    {
      if script == [] {
        return Works;
      }
      fault := script[0];
      script := script[1..];
    }

    /** os.OpenFile with O_CREATE|O_EXCL. */
    method CreateExclusive(path: FilePath, mode: nat) returns (ok: bool)
      modifies this`files, this`script
      ensures ok ==> path !in old(files) && files == old(files)[path := File("", mode)]
      ensures !ok ==> files == old(files)
      ensures Faults(script) <= Faults(old(script))
      ensures !ok && path !in old(files) ==> Faults(script) < Faults(old(script))
    {
      var fault := Next();
      if fault.Fails? || path in files {
        return false;
      }
      files := files[path := File("", mode)];
      return true;
    }

    /** file.Write on a path created by the caller. */
    method WriteFile(path: FilePath, data: string) returns (ok: bool)
      requires path in files
      modifies this`files, this`script
      ensures files.Keys == old(files).Keys
      ensures forall p | p in files && p != path :: files[p] == old(files)[p]
      ensures files[path].mode == old(files)[path].mode && (ok ==> files[path].content == data)
      ensures Faults(script) <= Faults(old(script)) && (!ok ==> Faults(script) < Faults(old(script)))
    {
      var fault := Next();
      files := files[path := files[path].(content := if fault.Works? then data else fault.partial)];
      return fault.Works?;
    }

    method Close() returns (ok: bool)
      modifies this`script
      ensures Faults(script) <= Faults(old(script)) && (!ok ==> Faults(script) < Faults(old(script)))
    {
      var fault := Next();
      return fault.Works?;
    }

    method Remove(path: FilePath) returns (ok: bool)
      modifies this`files, this`script
      ensures ok ==> files == old(files) - {path}
      ensures !ok ==> files == old(files)
      ensures Faults(script) <= Faults(old(script))
      ensures !ok && path in old(files) ==> Faults(script) < Faults(old(script))
    {
      var fault := Next();
      if fault.Fails? || path !in files {
        return false;
      }
      files := files - {path};
      return true;
    }

    /** os.CreateTemp: a name nobody uses. */
    method CreateTemp() returns (ok: bool, n: nat)
      requires Valid()
      modifies this`temps, this`nextTemp, this`script
      ensures Valid()
      ensures n !in old(temps) && temps == if ok then old(temps)[n := File("", 0x180)] else old(temps)
      ensures Faults(script) <= Faults(old(script)) && (!ok ==> Faults(script) < Faults(old(script)))
    {
      var fault := Next();
      n := nextTemp;
      if fault.Fails? {
        return false, n;
      }
      temps, nextTemp := temps[n := File("", 0x180)], nextTemp + 1;
      return true, n;
    }

    method Chmod(n: nat, mode: nat) returns (ok: bool)
      requires Valid() && n in temps
      modifies this`temps, this`script
      ensures Valid() && temps.Keys == old(temps).Keys
      ensures temps == if ok then old(temps)[n := old(temps)[n].(mode := mode)] else old(temps)
      ensures Faults(script) <= Faults(old(script)) && (!ok ==> Faults(script) < Faults(old(script)))
    {
      var fault := Next();
      if fault.Fails? {
        return false;
      }
      temps := temps[n := temps[n].(mode := mode)];
      return true;
    }

    method WriteTemp(n: nat, data: string) returns (ok: bool)
      requires Valid() && n in temps
      modifies this`temps, this`script
      ensures Valid() && temps.Keys == old(temps).Keys
      ensures temps[n].mode == old(temps)[n].mode && (ok ==> temps[n].content == data)
      ensures Faults(script) <= Faults(old(script)) && (!ok ==> Faults(script) < Faults(old(script)))
    {
      var fault := Next();
      temps := temps[n := temps[n].(content := if fault.Works? then data else fault.partial)];
      return fault.Works?;
    }

    /** os.Rename of a temporary file over a path. */
    method Rename(n: nat, path: FilePath) returns (ok: bool)
      requires Valid() && n in temps
      modifies this`files, this`temps, this`script
      ensures Valid()
      ensures ok ==> files == old(files)[path := old(temps)[n]] && temps == old(temps) - {n}
      ensures !ok ==> files == old(files) && temps == old(temps)
      ensures Faults(script) <= Faults(old(script)) && (!ok ==> Faults(script) < Faults(old(script)))
    {
      var fault := Next();
      if fault.Fails? {
        return false;
      }
      files, temps := files[path := temps[n]], temps - {n};
      return true;
    }

    /** The deferred removal; its error is dropped, and after a rename there is nothing to remove. */
    method RemoveTemp(n: nat)
      requires Valid()
      modifies this`temps, this`script, this`stuckTemps
      ensures Valid() && old(stuckTemps) <= stuckTemps
      ensures temps == old(temps) - {n} || (temps == old(temps) && n in stuckTemps)
      ensures Faults(script) <= Faults(old(script))
      ensures Faults(old(script)) == 0 ==> stuckTemps == old(stuckTemps)
    {
      var fault := Next();
      if n !in temps {
        return;
      }
      if fault.Fails? {
        stuckTemps := stuckTemps + {n};
      } else {
        temps := temps - {n};
      }
    }

    // ----------------------------------------------------------- writeChange

    /** Every temporary file is an earlier one or one whose removal failed. */
    twostate predicate NoNewTemps()
      reads this
    {
      && old(stuckTemps) <= stuckTemps
      && forall n | n in temps :: n in old(temps) || n in stuckTemps
    }

    /** The branch for a new file: all of it, or nothing, or a remainder that the error names. */
    method CreateFile(change: Change) returns (err: seq<Failure>)
      requires Valid()
      modifies this`files, this`script
      ensures Valid()
      ensures err == [] ==> change.path !in old(files) && files == old(files)[change.path := File(change.after, change.mode)]
      ensures err == [WriteFailed(change.path)] ==> files == old(files)
      ensures err == [] || err == [WriteFailed(change.path)] || err == [WriteFailed(change.path), CleanupFailed(change.path)]
      ensures err != [] ==> forall p | p != change.path :: Same(old(files), files, p)
      ensures Faults(script) <= Faults(old(script))
      ensures change.path !in old(files) ==> |err| + Faults(script) <= Faults(old(script))
    {
      var created := CreateExclusive(change.path, change.mode);
      if !created {
        return [WriteFailed(change.path)];
      }
      var written := WriteFile(change.path, change.after);
      var closed := Close();
      if !written || !closed {
        var removed := Remove(change.path);
        return if removed then [WriteFailed(change.path)] else [WriteFailed(change.path), CleanupFailed(change.path)];
      }
      return [];
    }

    /** The branch for an existing file: a temporary file renamed over it, or nothing at all. */
    method ReplaceFile(change: Change) returns (err: seq<Failure>)
      requires Valid()
      modifies this`files, this`temps, this`nextTemp, this`script, this`stuckTemps
      ensures Valid() && NoNewTemps()
      ensures err == [] || err == [WriteFailed(change.path)]
      ensures files == if err == [] then old(files)[change.path := File(change.after, change.mode)] else old(files)
      ensures |err| + Faults(script) <= Faults(old(script))
      ensures Faults(old(script)) == 0 ==> stuckTemps == old(stuckTemps)
    {
      var created, n := CreateTemp();
      if !created {
        return [WriteFailed(change.path)];
      }
      var done := FillAndRename(n, change);
      RemoveTemp(n);
      return if done then [] else [WriteFailed(change.path)];
    }

    method FillAndRename(n: nat, change: Change) returns (ok: bool)
      requires Valid() && n in temps
      modifies this`files, this`temps, this`script
      ensures Valid()
      ensures temps.Keys == if ok then old(temps).Keys - {n} else old(temps).Keys
      ensures files == if ok then old(files)[change.path := File(change.after, change.mode)] else old(files)
      ensures Faults(script) <= Faults(old(script)) && (!ok ==> Faults(script) < Faults(old(script)))
    {
      var allowed := Chmod(n, change.mode);
      if !allowed {
        var _ := Close();
        return false;
      }
      var written := WriteTemp(n, change.after);
      var closed := Close();
      if !written || !closed {
        return false;
      }
      ok := Rename(n, change.path);
    }

    method WriteChange(change: Change) returns (err: seq<Failure>)
      requires Valid()
      modifies this
      ensures Valid() && NoNewTemps()
      ensures err == [] ==> files == old(files)[change.path := File(change.after, change.mode)]
      ensures err == [] && change.before.None? ==> change.path !in old(files)
      ensures err == [WriteFailed(change.path)] ==> files == old(files)
      ensures err == [] || err == [WriteFailed(change.path)]
        || (err == [WriteFailed(change.path), CleanupFailed(change.path)] && change.before.None?)
      ensures err != [] ==> forall p | p != change.path :: Same(old(files), files, p)
      ensures Faults(script) <= Faults(old(script))
      ensures change.before.Some? || change.path !in old(files) ==> |err| + Faults(script) <= Faults(old(script))
      ensures Faults(old(script)) == 0 ==> stuckTemps == old(stuckTemps)
    {
      if change.before.None? {
        err := CreateFile(change);
      } else {
        err := ReplaceFile(change);
      }
    }
  }

  predicate Same(f: map<FilePath, File>, g: map<FilePath, File>, p: FilePath) {
    (p in f <==> p in g) && (p in f && p in g ==> f[p] == g[p])
  }

  // --------------------------------------------------------------------- run

  /** The plan fits the disk: distinct paths, and what it expects to replace is what is there. */
  ghost predicate Planned(changes: seq<Change>, files: map<FilePath, File>) {
    && (forall i, j | 0 <= i < j < |changes| :: changes[i].path != changes[j].path)
    && (forall i | 0 <= i < |changes| && changes[i].before.Some? ::
          changes[i].path in files && files[changes[i].path] == File(changes[i].before.value, changes[i].mode))
  }

  /** What is to be created is not there. */
  ghost predicate Absent(changes: seq<Change>, files: map<FilePath, File>) {
    forall i | 0 <= i < |changes| && changes[i].before.None? :: changes[i].path !in files
  }

  ghost predicate Untouched(changes: seq<Change>, p: FilePath) {
    forall i | 0 <= i < |changes| :: changes[i].path != p
  }

  ghost predicate Written(files: map<FilePath, File>, change: Change) {
    change.path in files && files[change.path] == File(change.after, change.mode)
  }

  /** The first `n` changes are in place, and nothing else differs. */
  ghost predicate Forward(before: map<FilePath, File>, files: map<FilePath, File>, changes: seq<Change>, n: nat)
    requires n <= |changes|
  {
    && (forall i | 0 <= i < n :: Written(files, changes[i]) && (changes[i].before.None? ==> changes[i].path !in before))
    && (forall p | Untouched(changes[..n], p) :: Same(before, files, p))
  }

  /** Change `n` failed and the rollback has come down to `from`. */
  ghost predicate RolledBack(before: map<FilePath, File>, files: map<FilePath, File>, changes: seq<Change>,
      n: nat, from: nat, err: seq<Failure>)
    requires from <= n < |changes|
  {
    && (forall i | 0 <= i < from ::
          Written(files, changes[i]) && (changes[i].before.None? ==> changes[i].path !in before)
          && UndoFailed(changes[i].path) !in err)
    && (forall i | from <= i < n ::
          if UndoFailed(changes[i].path) in err then Written(files, changes[i]) else Same(before, files, changes[i].path))
    && (CleanupFailed(changes[n].path) in err || Same(before, files, changes[n].path))
    && (forall p | Untouched(changes[..n + 1], p) :: Same(before, files, p))
  }

  /** Success leaves every planned path at its new content and nothing else changed; a failure leaves every
      path as it was, except those the returned error names as not cleaned up or not rolled back. */
  ghost predicate AllOrNothing(before: map<FilePath, File>, files: map<FilePath, File>, changes: seq<Change>, err: seq<Failure>) {
    if err == [] then
      && (forall i | 0 <= i < |changes| :: Written(files, changes[i]))
      && (forall p | Untouched(changes, p) :: Same(before, files, p))
    else
      && (forall p | !Same(before, files, p) :: UndoFailed(p) in err || CleanupFailed(p) in err)
      && (forall i | 0 <= i < |changes| && UndoFailed(changes[i].path) in err :: Written(files, changes[i]))
  }

  /** run, after planning: all or nothing.  Every reported failure is paid for by an operation that failed; so
      without faults it succeeds, and a single fault is always undone completely. */
  method Run(disk: Disk, changes: seq<Change>) returns (err: seq<Failure>)
    requires disk.Valid() && Planned(changes, disk.files)
    modifies disk
    ensures disk.Valid() && AllOrNothing(old(disk.files), disk.files, changes, err)
    ensures Absent(changes, old(disk.files)) ==> |err| + Faults(disk.script) <= Faults(old(disk.script))
    ensures Absent(changes, old(disk.files)) && Faults(old(disk.script)) == 0 ==>
      err == [] && disk.stuckTemps == old(disk.stuckTemps)
    ensures Absent(changes, old(disk.files)) && Faults(old(disk.script)) == 1 && err != [] ==>
      forall p :: Same(old(disk.files), disk.files, p)
    ensures forall n | n in disk.temps :: n in old(disk.temps) || n in disk.stuckTemps
  {
    ghost var before := disk.files;
    for i := 0 to |changes|
      invariant disk.Valid() && Forward(before, disk.files, changes, i)
      invariant Faults(disk.script) <= Faults(old(disk.script))
      invariant Faults(old(disk.script)) == 0 ==> disk.stuckTemps == old(disk.stuckTemps)
      invariant old(disk.stuckTemps) <= disk.stuckTemps
      invariant forall n | n in disk.temps :: n in old(disk.temps) || n in disk.stuckTemps
    {
      ghost var files := disk.files;
      NotYetWritten(before, files, changes, i);
      err := disk.WriteChange(changes[i]);
      if err != [] {
        FailureStartsRollback(before, files, disk.files, changes, i, err);
        ghost var first := err;
        err := Rollback(disk, changes, i, err, before);
        if |err| == 1 {
          OneFailureRestores(before, disk.files, changes, first, err);
        }
        return;
      }
      ForwardStep(before, files, disk.files, changes, i);
    }
    assert changes[..|changes|] == changes;
    return [];
  }

  lemma NotYetWritten(before: map<FilePath, File>, files: map<FilePath, File>, changes: seq<Change>, i: nat)
    requires i < |changes| && Planned(changes, before) && Forward(before, files, changes, i)
    ensures Same(before, files, changes[i].path)
  {
    assert Untouched(changes[..i], changes[i].path);
  }

  lemma ForwardStep(before: map<FilePath, File>, files: map<FilePath, File>, files': map<FilePath, File>, changes: seq<Change>, i: nat)
    requires i < |changes| && Planned(changes, before) && Forward(before, files, changes, i)
    requires files' == files[changes[i].path := File(changes[i].after, changes[i].mode)]
    requires changes[i].before.None? ==> changes[i].path !in files
    ensures Forward(before, files', changes, i + 1)
  {
    assert changes[..i + 1] == changes[..i] + [changes[i]];
    assert Untouched(changes[..i], changes[i].path);
    forall p | Untouched(changes[..i + 1], p)
      ensures Same(before, files', p)
    {
      assert changes[..i + 1][i] == changes[i];
      assert forall j | 0 <= j < i :: changes[..i + 1][j] == changes[..i][j];
      assert Untouched(changes[..i], p);
    }
  }

  lemma FailureStartsRollback(before: map<FilePath, File>, files: map<FilePath, File>, files': map<FilePath, File>,
      changes: seq<Change>, i: nat, err: seq<Failure>)
    requires i < |changes| && Planned(changes, before) && Forward(before, files, changes, i)
    requires forall p | p != changes[i].path :: Same(files, files', p)
    requires err == [WriteFailed(changes[i].path)] ==> files' == files
    requires err == [WriteFailed(changes[i].path)] || err == [WriteFailed(changes[i].path), CleanupFailed(changes[i].path)]
    ensures RolledBack(before, files', changes, i, i, err)
  {
    assert Untouched(changes[..i], changes[i].path);
    forall j | 0 <= j < i
      ensures Written(files', changes[j])
    {
      assert Same(files, files', changes[j].path);
    }
    forall p | Untouched(changes[..i + 1], p)
      ensures Same(before, files', p)
    {
      assert changes[..i + 1][i] == changes[i];
      assert forall j | 0 <= j < i :: changes[..i + 1][j] == changes[..i][j];
      assert Untouched(changes[..i], p);
      assert Same(files, files', p) && Same(before, files, p);
    }
  }

  /** A failed write that was cleaned up, with nothing failing in the rollback, leaves every path as it was. */
  lemma OneFailureRestores(before: map<FilePath, File>, files: map<FilePath, File>, changes: seq<Change>,
      first: seq<Failure>, err: seq<Failure>)
    requires AllOrNothing(before, files, changes, err) && |err| == 1
    requires first != [] && first[0].WriteFailed? && |first| <= |err| && err[..|first|] == first
    ensures forall p :: Same(before, files, p)
  {
    assert err[0] == err[..|first|][0] == first[0];
    assert forall f | f in err :: f == err[0];
  }

  /** The rollback loop of `run`: it goes through all earlier changes, whatever fails on the way. */
  method Rollback(disk: Disk, changes: seq<Change>, i: nat, first: seq<Failure>, ghost before: map<FilePath, File>)
    returns (err: seq<Failure>)
    requires disk.Valid() && i < |changes| && Planned(changes, before) && first != []
    requires forall k | i <= k < |changes| :: UndoFailed(changes[k].path) !in first
    requires RolledBack(before, disk.files, changes, i, i, first)
    modifies disk
    ensures disk.Valid() && err != [] && AllOrNothing(before, disk.files, changes, err)
    ensures |err| + Faults(disk.script) <= |first| + Faults(old(disk.script))
    ensures |err| >= |first| && err[..|first|] == first
    ensures old(disk.stuckTemps) <= disk.stuckTemps
    ensures forall n | n in disk.temps :: n in old(disk.temps) || n in disk.stuckTemps
  {
    err := first;
    var j := i;
    while j > 0
      invariant 0 <= j <= i && err != []
      invariant disk.Valid() && RolledBack(before, disk.files, changes, i, j, err)
      invariant |err| + Faults(disk.script) <= |first| + Faults(old(disk.script))
      invariant |err| >= |first| && err[..|first|] == first
      invariant forall k | i <= k < |changes| :: UndoFailed(changes[k].path) !in err
      invariant old(disk.stuckTemps) <= disk.stuckTemps
      invariant forall n | n in disk.temps :: n in old(disk.temps) || n in disk.stuckTemps
    {
      j := j - 1;
      ghost var files, err0 := disk.files, err;
      assert Written(files, changes[j]);
      var ok := Undo(disk, changes[j]);
      if !ok {
        err := err + [UndoFailed(changes[j].path)];
      }
      RollbackStep(before, files, disk.files, changes, i, j, err0, ok);
    }
    RolledBackAll(before, disk.files, changes, i, err);
  }

  /** One turn of the rollback loop. */
  method Undo(disk: Disk, previous: Change) returns (ok: bool)
    requires disk.Valid()
    modifies disk
    ensures disk.Valid()
    ensures disk.files ==
      if !ok then old(disk.files)
      else if previous.before.None? then old(disk.files) - {previous.path}
      else old(disk.files)[previous.path := File(previous.before.value, previous.mode)]
    ensures Faults(disk.script) <= Faults(old(disk.script))
    ensures !ok && previous.path in old(disk.files) ==> Faults(disk.script) < Faults(old(disk.script))
    ensures old(disk.stuckTemps) <= disk.stuckTemps
    ensures forall n | n in disk.temps :: n in old(disk.temps) || n in disk.stuckTemps
  {
    if previous.before.None? {
      ok := disk.Remove(previous.path);
    } else {
      var err := disk.WriteChange(Change(previous.path, Some(previous.after), previous.before.value, previous.mode));
      ok := err == [];
    }
  }

  lemma RollbackStep(before: map<FilePath, File>, files: map<FilePath, File>, files': map<FilePath, File>,
      changes: seq<Change>, i: nat, j: nat, err: seq<Failure>, ok: bool)
    requires j < i < |changes| && Planned(changes, before) && RolledBack(before, files, changes, i, j + 1, err)
    requires files' ==
      if !ok then files
      else if changes[j].before.None? then files - {changes[j].path}
      else files[changes[j].path := File(changes[j].before.value, changes[j].mode)]
    ensures RolledBack(before, files', changes, i, j, if ok then err else err + [UndoFailed(changes[j].path)])
  {
    var err' := if ok then err else err + [UndoFailed(changes[j].path)];
    assert forall f :: f in err' <==> f in err || (!ok && f == UndoFailed(changes[j].path));
    forall p | Untouched(changes[..i + 1], p)
      ensures Same(before, files', p)
    {
      assert changes[..i + 1][j] == changes[j];
      assert Same(before, files, p);
    }
  }

  lemma RolledBackAll(before: map<FilePath, File>, files: map<FilePath, File>, changes: seq<Change>, i: nat, err: seq<Failure>)
    requires i < |changes| && Planned(changes, before) && RolledBack(before, files, changes, i, 0, err) && err != []
    requires forall k | i <= k < |changes| :: UndoFailed(changes[k].path) !in err
    ensures AllOrNothing(before, files, changes, err)
  {
    forall p | !Same(before, files, p)
      ensures UndoFailed(p) in err || CleanupFailed(p) in err
    {
      assert !Untouched(changes[..i + 1], p);
      var k :| 0 <= k < i + 1 && changes[..i + 1][k].path == p;
      assert changes[k].path == p;
    }
  }
}
