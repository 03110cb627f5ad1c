/**
 * Starting one container: collect its scripts from its volume mounts, run the command, record
 * the process group. The file system, the shell and the clock are given as what they answer.
 */
module Scripts {
  import opened Collections
  import opened PodTypes
  import FanIn

  datatype Mount = Mount(volume: string, path: string)

  /** A file in a directory. */
  datatype FilePath = FilePath(dir: string, file: string)

  const NO_SCRIPT := FilePath("", "")

  datatype Container = Container(spec: ContainerSpec, mounts: seq<Mount>, command: seq<string>)

  /** What the shell and the kernel answer while a script is started. */
  datatype WaitOutcome = ExitedCleanly | ExitedWithError(message: string) | StillRunning

  datatype RunEnv = RunEnv(
    startError: Option<string>, pgid: Option<nat>, stdoutCreated: bool, stderrCreated: bool, wait: WaitOutcome)

  /** What the file system answers for one container: the files of a directory in order (None if it
      cannot be read), whether a file can be copied into a mount directory, where a mount path
      lies, whether the group file can be written, and the clock, when the goroutine begins to
      collect and when it sends. */
  datatype Env = Env(
    readDir: string -> Option<seq<string>>,
    copies: (string, string, string) -> bool,
    mountDirectory: string -> string,
    run: RunEnv,
    groupFileWritten: bool,
    collectStart: Time,
    now: Time)

  // ---------- Which script a volume stands for ----------

  predicate Contains(s: string, part: string) {
    part <= s || (s != [] && Contains(s[1..], part))
  }

  /** The part occurs at the position. */
  predicate OccursAt(s: string, part: string, i: nat) { i + |part| <= |s| && s[i..i + |part|] == part }

  lemma {:induction false} OccursLater(s: string, part: string, i: nat)
    requires s != []
    ensures OccursAt(s[1..], part, i) <==> OccursAt(s, part, i + 1)
  {
    if i + 1 + |part| <= |s| { assert s[1..][i..i + |part|] == s[i + 1..i + 1 + |part|]; }
  }

  lemma {:induction false} ContainsIff(s: string, part: string)
    ensures Contains(s, part) <==> exists i: nat :: OccursAt(s, part, i)
  {
    if part <= s {
      assert OccursAt(s, part, 0);
    } else if s != [] {
      ContainsIff(s[1..], part);
      forall i: nat ensures OccursAt(s[1..], part, i) <==> OccursAt(s, part, i + 1) { OccursLater(s, part, i); }
      if i: nat :| OccursAt(s, part, i) {
        assert i != 0;
        assert OccursAt(s[1..], part, i - 1);
      }
    }
  }

  /** Certificates and keys are not scripts. */
  predicate Eligible(file: string) {
    !Contains(file, "crt") && !Contains(file, "key") && !Contains(file, "pem")
  }

  lemma {:induction false} EligibleIff(file: string)
    ensures Eligible(file) <==>
      !exists i: nat :: OccursAt(file, "crt", i) || OccursAt(file, "key", i) || OccursAt(file, "pem", i)
  {
    ContainsIff(file, "crt");
    ContainsIff(file, "key");
    ContainsIff(file, "pem");
  }

  /** The directory a mount's files come from; a volume that is not there reads as no path. */
  function VolumeDirectory(volumes: map<string, string>, m: Mount): string {
    if m.volume in volumes then volumes[m.volume] else ""
  }

  function LastEligible(files: seq<string>): Option<string> {
    if files == [] then None
    else if Eligible(files[|files| - 1]) then Some(files[|files| - 1])
    else LastEligible(files[..|files| - 1])
  }

  predicate NoneEligible(files: seq<string>) { forall k :: 0 <= k < |files| ==> !Eligible(files[k]) }

  /** Fixed by positions: an eligible file after which no file is eligible, or none if none is. */
  lemma {:induction false} LastEligibleIsLast(files: seq<string>) returns (k: nat)
    ensures LastEligible(files).None? <==> NoneEligible(files)
    ensures LastEligible(files).Some? ==>
      k < |files| && LastEligible(files) == Some(files[k]) && Eligible(files[k]) && NoneEligible(files[k + 1..])
  {
    k := 0;
    if files != [] {
      var n := |files| - 1;
      if Eligible(files[n]) {
        k := n;
      } else {
        k := LastEligibleIsLast(files[..n]);
        assert files == files[..n] + [files[n]];
      }
    }
  }

  lemma {:induction false} LaterAreNotEligible(files: seq<string>, k: nat)
    requires k < |files| && NoneEligible(files[k + 1..])
    ensures forall j :: k < j < |files| ==> !Eligible(files[j])
  {
    forall j | k < j < |files| ensures !Eligible(files[j]) { assert files[k + 1..][j - k - 1] == files[j]; }
  }

  /** Every mount's directory can be read and every eligible file in it copied. */
  predicate Collectable(env: Env, volumes: map<string, string>, m: Mount) {
    var dir := VolumeDirectory(volumes, m);
    && env.readDir(dir).Some?
    && forall k :: 0 <= k < |env.readDir(dir).value| && Eligible(env.readDir(dir).value[k])
         ==> env.copies(dir, env.mountDirectory(m.path), env.readDir(dir).value[k])
  }

  /** The last eligible file of a mount, as it lies in the mount's directory. */
  function ScriptOf(env: Env, volumes: map<string, string>, m: Mount): Option<FilePath> {
    match env.readDir(VolumeDirectory(volumes, m))
    case None => None
    case Some(files) =>
      match LastEligible(files)
      case None => None
      case Some(file) => Some(FilePath(env.mountDirectory(m.path), file))
  }

  /** A mount's script is the file in the mount's directory that bears the name of the last eligible
      file of its volume's directory. */
  lemma {:induction false} ScriptOfIs(env: Env, volumes: map<string, string>, m: Mount, script: FilePath)
    requires m.volume in volumes
    ensures ScriptOf(env, volumes, m) == Some(script) <==>
      && script.dir == env.mountDirectory(m.path) && env.readDir(volumes[m.volume]).Some?
      && var files := env.readDir(volumes[m.volume]).value;
      exists k :: 0 <= k < |files| && files[k] == script.file && Eligible(files[k]) && NoneEligible(files[k + 1..])
  {
    if env.readDir(volumes[m.volume]).Some? {
      var files := env.readDir(volumes[m.volume]).value;
      var k := LastEligibleIsLast(files);
      if j :| 0 <= j < |files| && files[j] == script.file && Eligible(files[j]) && NoneEligible(files[j + 1..]) {
        LaterAreNotEligible(files, j);
        LaterAreNotEligible(files, k);
      }
    }
  }

  /** The script of a volume name: that of the last mount of the name that has one. */
  function LastScript(env: Env, volumes: map<string, string>, mounts: seq<Mount>, name: string): Option<FilePath> {
    if mounts == [] then None
    else
      var m := mounts[|mounts| - 1];
      if m.volume == name && ScriptOf(env, volumes, m).Some? then ScriptOf(env, volumes, m)
      else LastScript(env, volumes, mounts[..|mounts| - 1], name)
  }

  /** Fixed by positions: the script of a name is that of some mount of the name, and no later
      mount of the name has one; there is none only if no mount of the name has one. */
  lemma {:induction false} LastScriptIsLast(env: Env, volumes: map<string, string>, mounts: seq<Mount>, name: string)
    ensures match LastScript(env, volumes, mounts, name)
      case None => forall k :: 0 <= k < |mounts| && mounts[k].volume == name ==> ScriptOf(env, volumes, mounts[k]).None?
      case Some(script) => exists k | 0 <= k < |mounts| ::
        && mounts[k].volume == name && ScriptOf(env, volumes, mounts[k]) == Some(script)
        && forall j :: k < j < |mounts| && mounts[j].volume == name ==> ScriptOf(env, volumes, mounts[j]).None?
  {
    if mounts != [] {
      var n := |mounts| - 1;
      var m := mounts[n];
      if m.volume == name && ScriptOf(env, volumes, m).Some? {
        assert mounts[n] == m;
      } else {
        LastScriptIsLast(env, volumes, mounts[..n], name);
        if LastScript(env, volumes, mounts[..n], name).Some? {
          var script := LastScript(env, volumes, mounts[..n], name).value;
          var k :| 0 <= k < n && mounts[..n][k].volume == name && ScriptOf(env, volumes, mounts[..n][k]) == Some(script)
            && forall j :: k < j < n && mounts[..n][j].volume == name ==> ScriptOf(env, volumes, mounts[..n][j]).None?;
          forall j | k < j < |mounts| && mounts[j].volume == name ensures ScriptOf(env, volumes, mounts[j]).None? {
            if j < n { assert mounts[..n][j] == mounts[j]; }
          }
          assert mounts[k] == mounts[..n][k];
        } else {
          forall k | 0 <= k < |mounts| && mounts[k].volume == name ensures ScriptOf(env, volumes, mounts[k]).None? {
            if k < n { assert mounts[..n][k] == mounts[k]; }
          }
        }
      }
    }
  }

  datatype CollectError = ReadError | CopyError

  /** Why a mount cannot be collected, if it cannot. */
  function MountError(env: Env, volumes: map<string, string>, m: Mount): Option<CollectError> {
    if env.readDir(VolumeDirectory(volumes, m)).None? then Some(ReadError)
    else if !Collectable(env, volumes, m) then Some(CopyError)
    else None
  }

  /** The first error among the mounts decides. */
  function FirstFailure(env: Env, volumes: map<string, string>, mounts: seq<Mount>): (r: Option<CollectError>)
    ensures r.None? <==> forall k :: 0 <= k < |mounts| ==> Collectable(env, volumes, mounts[k])
  {
    if mounts == [] then None
    else
      var before := FirstFailure(env, volumes, mounts[..|mounts| - 1]);
      if before.Some? then before else MountError(env, volumes, mounts[|mounts| - 1])
  }

  lemma {:induction false} FirstFailureAt(env: Env, volumes: map<string, string>, mounts: seq<Mount>, i: nat)
    requires i < |mounts| && MountError(env, volumes, mounts[i]).Some?
    requires forall k :: 0 <= k < i ==> Collectable(env, volumes, mounts[k])
    ensures FirstFailure(env, volumes, mounts) == MountError(env, volumes, mounts[i])
  {
    var front := mounts[..|mounts| - 1];
    if i < |front| {
      FirstFailureAt(env, volumes, front, i);
    } else {
      assert FirstFailure(env, volumes, front).None?;
    }
  }

  function Failed(startTime: Time, now: Time, error: CollectError): ContainerState {
    match error
    case ReadError => Terminated(startTime, now, 1, "readDefaultVolDirError", "Failed to read default volume directory")
    case CopyError => Terminated(startTime, now, 1, "copyFileError", "Failed to copy file")
  }

  /** The state of a container whose scripts could not be collected. */
  predicate CollectFailure(state: Option<ContainerState>) {
    && state.Some? && state.value.Terminated? && state.value.exitCode == 1
    && state.value.startedAt <= state.value.finishedAt
    && state.value.reason in {"readDefaultVolDirError", "copyFileError"}
  }

  /** A map holds exactly the scripts of the volume names mounted so far. */
  ghost predicate Maps(scripts: map<string, FilePath>, env: Env, volumes: map<string, string>, mounts: seq<Mount>) {
    forall name ::
      && (name in scripts <==> LastScript(env, volumes, mounts, name).Some?)
      && (name in scripts ==> Some(scripts[name]) == LastScript(env, volumes, mounts, name))
  }

  /** The loop over one mount's files: copy the eligible ones, each taking the volume's place. */
  method CopyFiles(env: Env, dir: string, mountDirectory: string, volume: string, files: seq<string>, scripts: map<string, FilePath>)
    returns (filled: map<string, FilePath>, copied: bool)
    ensures copied <==> forall k :: 0 <= k < |files| && Eligible(files[k]) ==> env.copies(dir, mountDirectory, files[k])
    ensures copied ==> filled == match LastEligible(files)
      case None => scripts
      case Some(file) => scripts[volume := FilePath(mountDirectory, file)]
  {
    filled := scripts;
    for j := 0 to |files|
      invariant forall k :: 0 <= k < j && Eligible(files[k]) ==> env.copies(dir, mountDirectory, files[k])
      invariant filled == match LastEligible(files[..j])
        case None => scripts
        case Some(file) => scripts[volume := FilePath(mountDirectory, file)]
    {
      assert files[..j + 1][..j] == files[..j];
      if !Eligible(files[j]) { continue; }
      if !env.copies(dir, mountDirectory, files[j]) { return filled, false; }
      filled := filled[volume := FilePath(mountDirectory, files[j])];
    }
    assert files[..|files|] == files;
    copied := true;
  }

  lemma {:induction false} MapsNext(scripts: map<string, FilePath>, env: Env, volumes: map<string, string>, mounts: seq<Mount>, m: Mount)
    requires Maps(scripts, env, volumes, mounts)
    ensures Maps(match ScriptOf(env, volumes, m) case None => scripts case Some(script) => scripts[m.volume := script],
                 env, volumes, mounts + [m])
  {
    assert (mounts + [m])[..|mounts|] == mounts;
  }

  /** The body of the mount loop: collects one mount, or fails with a state. */
  method CollectMount(env: Env, volumes: map<string, string>, m: Mount, startTime: Time, scripts: map<string, FilePath>)
    returns (filled: map<string, FilePath>, state: Option<ContainerState>)
    requires startTime <= env.now
    ensures state.None? <==> Collectable(env, volumes, m)
    ensures state.None? ==> filled == match ScriptOf(env, volumes, m) case None => scripts case Some(script) => scripts[m.volume := script]
    ensures state.Some? ==> CollectFailure(state)
    ensures state.Some? ==> state.value == Failed(startTime, env.now, MountError(env, volumes, m).value)
  {
    var dir := VolumeDirectory(volumes, m);
    var files := env.readDir(dir);
    if files.None? {
      return scripts, Some(Terminated(startTime, env.now, 1, "readDefaultVolDirError", "Failed to read default volume directory"));
    }
    var copied;
    filled, copied := CopyFiles(env, dir, env.mountDirectory(m.path), m.volume, files.value, scripts);
    if !copied {
      return filled, Some(Terminated(startTime, env.now, 1, "copyFileError", "Failed to copy file"));
    }
    state := None;
  }

  /** On success each volume name is mapped to its script, a name without one is absent, and there
      is no state; it fails exactly when some mount cannot be collected, with a failure state. */
  method NewCollectScripts(env: Env, volumes: map<string, string>, mounts: seq<Mount>, startTime: Time)
    returns (scripts: map<string, FilePath>, state: Option<ContainerState>, err: bool)
    requires startTime <= env.now
    ensures !err <==> forall k :: 0 <= k < |mounts| ==> Collectable(env, volumes, mounts[k])
    ensures !err ==> state.None? && Maps(scripts, env, volumes, mounts)
    ensures err ==> scripts == map[] && CollectFailure(state)
    ensures err ==> state.value == Failed(startTime, env.now, FirstFailure(env, volumes, mounts).value)
    ensures err ==> exists i ::
      && 0 <= i < |mounts| && !Collectable(env, volumes, mounts[i])
      && (forall k :: 0 <= k < i ==> Collectable(env, volumes, mounts[k]))
      && state.value.reason == if env.readDir(VolumeDirectory(volumes, mounts[i])).None? then "readDefaultVolDirError" else "copyFileError"
  {
    scripts, state, err := map[], None, false;
    for i := 0 to |mounts|
      invariant !err && state.None?
      invariant forall k :: 0 <= k < i ==> Collectable(env, volumes, mounts[k])
      invariant Maps(scripts, env, volumes, mounts[..i])
    {
      MapsNext(scripts, env, volumes, mounts[..i], mounts[i]);
      assert mounts[..i + 1] == mounts[..i] + [mounts[i]];
      scripts, state := CollectMount(env, volumes, mounts[i], startTime, scripts);
      if state.Some? {
        FirstFailureAt(env, volumes, mounts, i);
        return map[], state, true;
      }
    }
    assert mounts[..|mounts|] == mounts;
  }

  // ---------- Running it ----------

  /** A failed start: exit code 1, from the container's start to now. */
  function RunFailure(startTime: Time, now: Time, reason: string, message: string): ContainerState {
    Terminated(startTime, now, 1, reason, message)
  }

  /** Why a run counts as failed, if it does. */
  function RunError(env: RunEnv): Option<string> {
    if env.startError.Some? then Some("cmdStartError")
    else if env.pgid.None? then Some("getPgidError")
    else if !env.stdoutCreated then Some("createStdoutFileError")
    else if !env.stderrCreated then Some("createStderrFileError")
    else if env.wait.ExitedWithError? then Some("cmdWaitError")
    else None
  }

  /** An error comes with a state, a failed start up to now, and only then. */
  method RunScript(env: RunEnv, startTime: Time, now: Time) returns (pgid: nat, state: Option<ContainerState>, err: bool)
    requires startTime <= now
    ensures err <==> state.Some?
    ensures err <==> env.startError.Some? || env.pgid.None? || !env.stdoutCreated || !env.stderrCreated || env.wait.ExitedWithError?
    ensures err ==> state.value.Terminated? && state.value.exitCode == 1 && Some(state.value.reason) == RunError(env)
    ensures err ==> state.value.startedAt == startTime && state.value.finishedAt == now
    ensures pgid == if env.startError.None? && env.pgid.Some? then env.pgid.value else 0
  {
    if env.startError.Some? {
      return 0, Some(RunFailure(startTime, now, "cmdStartError", "cmd.Start() failed")), true;
    }
    if env.pgid.None? {
      return 0, Some(RunFailure(startTime, now, "getPgidError", "failed to get pgid")), true;
    }
    pgid := env.pgid.value;
    if !env.stdoutCreated {
      return pgid, Some(RunFailure(startTime, now, "createStdoutFileError", "failed to create stdout file")), true;
    }
    if !env.stderrCreated {
      return pgid, Some(RunFailure(startTime, now, "createStderrFileError", "failed to create stderr file")), true;
    }
    match env.wait {
      case ExitedWithError(_) =>
        return pgid, Some(RunFailure(startTime, now, "cmdWaitError", "cmd.Wait() failed")), true;
      case ExitedCleanly => return pgid, None, false;
      case StillRunning => return pgid, None, false;
    }
  }

  function Slashed(p: FilePath): string { if p == NO_SCRIPT then "" else p.dir + "/" + p.file }

  /** Dereferences the state, so there must be one. */
  function GenerateContainerStatus(spec: ContainerSpec, script: FilePath, state: Option<ContainerState>, pgid: nat): ContainerStatus
    requires state.Some?
  {
    ContainerStatus(spec.name, state.value, false, spec.image, Slashed(script), Decimal(pgid))
  }

  /** What a container's goroutine hands to the fan-in: nothing but an error if its scripts were
      collected but it has no command, and otherwise a status under its own name, which is
      running exactly when no error is sent and a failure otherwise. */
  ghost predicate GoodOutcome(spec: ContainerSpec, o: FanIn.Outcome, silent: bool) {
    && (o.status.None? <==> silent)
    && (o.status.Some? ==>
        && o.status.value.name == spec.name && o.status.value.image == spec.image
        && (o.error ==> Bad(o.status.value) && o.status.value.state.startedAt <= o.status.value.state.finishedAt
                        && o.status.value.state.exitCode in {1, 10})
        && (!o.error ==> o.status.value.state.Running?))
    && (silent ==> o.error)
  }

  /** The script a container's image names, as text; empty if no volume of that name has one. */
  function ScriptText(c: Container, env: Env, volumes: map<string, string>): string {
    match LastScript(env, volumes, c.mounts, c.spec.image)
    case None => ""
    case Some(script) => Slashed(script)
  }

  /** What the status sent for a container whose scripts were collected says: the path of its
      script, its process group once that is known, and either that it is running since the start
      or why and when it failed. */
  ghost predicate Tells(c: Container, env: Env, volumes: map<string, string>, startTime: Time, st: ContainerStatus) {
    && st.name == c.spec.name && st.image == c.spec.image && !st.ready
    && st.imageID == ScriptText(c, env, volumes)
    && st.containerID == Decimal(if env.run.startError.None? && env.run.pgid.Some? then env.run.pgid.value else 0)
    && match RunError(env.run)
       case Some(reason) => TerminatedWith(st.state, startTime, env.now, 1, reason)
       case None =>
         if env.groupFileWritten then st.state == Running(startTime)
         else TerminatedWith(st.state, startTime, env.now, 10, "writePgidError")
  }

  predicate TerminatedWith(state: ContainerState, startedAt: Time, finishedAt: Time, exitCode: int, reason: string) {
    && state.Terminated? && state.startedAt == startedAt && state.finishedAt == finishedAt
    && state.exitCode == exitCode && state.reason == reason
  }

  /** The body of the goroutine runScriptParallel starts for a container. An error is sent exactly
      if scripts cannot be collected, there is no command, the run fails, or the group file cannot
      be written. */
  method StartContainer(c: Container, env: Env, volumes: map<string, string>, startTime: Time) returns (o: FanIn.Outcome)
    requires startTime <= env.collectStart <= env.now
    ensures GoodOutcome(c.spec, o,
      c.command == [] && forall k :: 0 <= k < |c.mounts| ==> Collectable(env, volumes, c.mounts[k]))
    ensures FirstFailure(env, volumes, c.mounts).Some? ==>
      o == FanIn.Outcome(true, Some(GenerateContainerStatus(
             c.spec, NO_SCRIPT, Some(Failed(env.collectStart, env.now, FirstFailure(env, volumes, c.mounts).value)), 0)))
    ensures FirstFailure(env, volumes, c.mounts).None? && o.status.Some? ==> Tells(c, env, volumes, startTime, o.status.value)
    ensures o.error <==>
      || !(forall k :: 0 <= k < |c.mounts| ==> Collectable(env, volumes, c.mounts[k]))
      || c.command == [] || RunError(env.run).Some? || !env.groupFileWritten
  {
    var scripts, state, err := NewCollectScripts(env, volumes, c.mounts, env.collectStart);
    if err {
      return FanIn.Outcome(true, Some(GenerateContainerStatus(c.spec, NO_SCRIPT, state, 0)));
    }
    var script := if c.spec.image in scripts then scripts[c.spec.image] else NO_SCRIPT;
    if |c.command| == 0 {
      return FanIn.Outcome(true, None);
    }
    var pgid;
    pgid, state, err := RunScript(env.run, startTime, env.now);
    if err {
      return FanIn.Outcome(true, Some(GenerateContainerStatus(c.spec, script, state, pgid)));
    }
    if !env.groupFileWritten {
      state := Some(Terminated(startTime, env.now, 10, "writePgidError", "failed to write pgid to file"));
      return FanIn.Outcome(true, Some(GenerateContainerStatus(c.spec, script, state, pgid)));
    }
    return FanIn.Outcome(false, Some(GenerateContainerStatus(c.spec, script, Some(Running(startTime)), pgid)));
  }
}
