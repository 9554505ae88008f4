/**
 The setup tool: the planner, and the command that plans, writes and prints.
 */
module SetupTool {
  import opened Prelude
  import opened Slug
  import opened SetupRun
  import opened SetupPlan
  import opened SetupContents

  /** plan.  It fails exactly with its specification, and every plan can be handed to `run`: the names are the
      ones the project and the options determine, every change is right, and no other file is touched. */
  method Plan(p: Project, order: seq<FilePath>, opts: Options, f: Formats, secrets: Secrets)
    returns (r: Result<Planning, PlanError>)
    requires NoRepeats(order) && forall q | q in order :: q in p.files
    ensures r == PlanOf(p, order, opts, f, secrets)
    ensures r.Ok? ==> Resolve(p, opts, f).Ok? && Named(p, opts, f, Resolve(p, opts, f).value)
    ensures r.Ok? ==> Planned(r.value.changes, p.files) && Absent(r.value.changes, p.files)
    ensures r.Ok? ==> AllRight(p, order, Resolve(p, opts, f).value, f, secrets, r.value.changes)
    ensures r.Ok? ==> forall q :: Touches(r.value.changes, q) <==> Proposed(p, order, Resolve(p, opts, f).value, f, q)
    ensures r.Ok? ==> r.value.password == if LOCAL_SEED_PATH in p.files then "" else secrets.password
  {
    var names := Resolve(p, opts, f);
    if names.Err? {
      return Err(names.error);
    }
    var walked := Walk(Editor(names.value, f), p.files, order);
    if walked.Err? {
      return Err(walked.error);
    }
    var local := LocalChange(p, names.value, f, secrets);
    if local.Err? {
      return Err(local.error);
    }
    var seed := SeedChange(p, secrets);
    if seed.Err? {
      return Err(seed.error);
    }
    PlanMeans(p, order, names.value, f, secrets);
    ResolvedIff(p, opts, f, names.value);
    AcceptedIsSafe(names.value.newSlug);
    PlanIsRight(p, order, names.value, f, secrets);
    return Ok(Planning(walked.value + (local.value + seed.value), if seed.value == [] then "" else secrets.password));
  }

  /** Which of the two lines run prints get through: the closing message and the password. */
  datatype Output = Output(message: bool, password: bool)

  datatype SetupError = NotPlanned(why: PlanError) | NotWritten(errors: seq<Failure>) | NotPrinted

  /** Everything there is to print got through. */
  predicate AllPrinted(output: Output, password: string) {
    output.message && (password == "" || output.password)
  }

  /** Writing a plan: all or nothing, and when nothing fails the project is moved. */
  method Write(disk: Disk, ghost p: Project, ghost order: seq<FilePath>, ghost n: Names, ghost f: Formats,
      ghost secrets: Secrets, changes: seq<Change>) returns (errors: seq<Failure>)
    requires disk.Valid() && disk.files == p.files && Planned(changes, p.files) && Absent(changes, p.files)
    requires AllRight(p, order, n, f, secrets, changes)
    modifies disk
    ensures disk.Valid() && AllOrNothing(p.files, disk.files, changes, errors)
    ensures Faults(old(disk.script)) == 0 ==> errors == []
    ensures errors == [] ==> Applied(p, changes, p.(files := disk.files)) && Moved(p, order, n, f, secrets, disk.files)
  {
    errors := Run(disk, changes);
    if errors == [] {
      RunMoves(p, order, n, f, secrets, changes, p.(files := disk.files));
    }
  }

  /** The closing message, and the password when there is one. */
  method Print(output: Output, password: string) returns (err: Option<SetupError>, shown: string)
    ensures err == if AllPrinted(output, password) then None else Some(NotPrinted)
    ensures shown == if AllPrinted(output, password) then password else ""
  {
    if !output.message {
      return Some(NotPrinted), "";
    }
    if password != "" {
      if !output.password {
        return Some(NotPrinted), "";
      }
      return None, password;
    }
    return None, "";
  }

  /** How a run of the tool ends.  A failed plan touches nothing and a failed write is rolled back; but when
      printing fails the error comes with every change in place and the new password not shown, and by
      `SetupIdempotent` no later run shows one. */
  ghost predicate Ends(p: Project, order: seq<FilePath>, opts: Options, f: Formats, secrets: Secrets, output: Output,
      files: map<FilePath, File>, err: Option<SetupError>, shown: string)
    requires forall q | q in order :: q in p.files
  {
    var planned, names := PlanOf(p, order, opts, f, secrets), Resolve(p, opts, f);
    if planned.Err? then
      err == Some(NotPlanned(planned.error)) && shown == "" && files == p.files
    else if err.Some? && err.value.NotWritten? then
      shown == "" && err.value.errors != [] && AllOrNothing(p.files, files, planned.value.changes, err.value.errors)
    else
      && names.Ok? && Named(p, opts, f, names.value) && Moved(p, order, names.value, f, secrets, files)
      && Applied(p, planned.value.changes, p.(files := files))
      && err == (if AllPrinted(output, planned.value.password) then None else Some(NotPrinted))
      && shown == if err.None? then planned.value.password else ""
  }

  /** The tool: plan, write, print.  Without faults of the disk it never ends with `NotWritten`. */
  method Setup(disk: Disk, special: set<FilePath>, order: seq<FilePath>, opts: Options, f: Formats, secrets: Secrets,
      output: Output) returns (err: Option<SetupError>, shown: string)
    requires disk.Valid() && NoRepeats(order) && forall q | q in order :: q in disk.files
    modifies disk
    ensures disk.Valid()
    ensures Ends(Project(old(disk.files), special), order, opts, f, secrets, output, disk.files, err, shown)
    ensures Faults(old(disk.script)) == 0 ==> err.None? || !err.value.NotWritten?
  {
    var p := Project(disk.files, special);
    var planned := Plan(p, order, opts, f, secrets);
    if planned.Err? {
      return Some(NotPlanned(planned.error)), "";
    }
    var errors := Write(disk, p, order, Resolve(p, opts, f).value, f, secrets, planned.value.changes);
    if errors != [] {
      return Some(NotWritten(errors)), "";
    }
    err, shown := Print(output, planned.value.password);
  }
}
