/**
 `save` (src/config/mod.rs): write a sibling temporary file, sync it, rename it
 over the target.  Any number of saves run at once, in any number of processes;
 a process may be killed and the power may fail after every step.
 */
module ConfigSave {
  import opened Wrappers

  type Pid = nat
  type Inode = nat
  type SaveId = nat

  /** The names in one directory that a save of one target touches. */
  datatype Name = Target | Temp(pid: Pid, n: nat)

  type Directory = map<Name, Inode>

  /** `synced`: the data on the disk is the data in the cache. */
  datatype File = File(data: string, synced: bool)

  datatype Phase =
    | Named                  // has its temporary name, no file yet
    | Writing(inode: Inode, written: nat)
    | Synced(inode: Inode)
    | Failing                // an operation failed; about to clean up

  datatype Save = Save(name: Name, body: string, phase: Phase)

  /**
   `versions` are the directories the disk may show after a power failure: the
   directory itself is never synced, so any since the last failure is possible.
   */
  datatype State = State(
    files: map<Inode, File>,
    dir: Directory,
    versions: set<Directory>,
    counters: map<Pid, nat>,
    saves: map<SaveId, Save>,
    submitted: set<string>,
    nextInode: nat
  )

  datatype Action =
    | StartProcess(pid: Pid)
    | Begin(id: SaveId, pid: Pid, body: string)
    | Create(id: SaveId)
    | Write(id: SaveId, count: nat)
    | Sync(id: SaveId)
    | Rename(id: SaveId)
    | Fail(id: SaveId)
    | CleanUp(id: SaveId, removed: bool)
    | DropFuture(id: SaveId)
    | Kill(pid: Pid)
    | PowerFails(dir: Directory, garbage: Inode -> string)

  predicate Enabled(s: State, a: Action) {
    match a
    case StartProcess(pid) => pid !in s.counters
    case Begin(id, pid, _) => id !in s.saves && pid in s.counters
    case Kill(_) => true
    case PowerFails(dir, _) => dir in s.versions
    case _ =>
      a.id in s.saves &&
      var save := s.saves[a.id];
      match a
      case Create(_) => save.phase.Named?
      case Write(_, count) =>
        save.phase.Writing? && save.phase.inode in s.files && save.phase.written + count <= |save.body|
      case Sync(_) =>
        save.phase.Writing? && save.phase.inode in s.files && save.phase.written == |save.body|
      case Rename(_) => save.phase.Synced? && save.name in s.dir
      case Fail(_) => !save.phase.Failing?
      case CleanUp(_, _) => save.phase.Failing?
      case _ => true
  }

  function Rebound(s: State, dir: Directory): State {
    s.(dir := dir, versions := s.versions + {dir})
  }

  function At(s: State, id: SaveId, phase: Phase): State
    requires id in s.saves
  {
    s.(saves := s.saves[id := s.saves[id].(phase := phase)])
  }

  /** `File::create`: truncates the file if the name is taken. */
  function Created(s: State, id: SaveId): State
    requires id in s.saves
  {
    var name := s.saves[id].name;
    if name in s.dir then
      At(s.(files := s.files[s.dir[name] := File("", false)]), id, Writing(s.dir[name], 0))
    else
      var inode := s.nextInode;
      At(Rebound(s.(files := s.files[inode := File("", false)], nextInode := inode + 1), s.dir[name := inode]),
         id, Writing(inode, 0))
  }

  /** After a power failure a file that was not synced may hold anything. */
  function Recovered(files: map<Inode, File>, garbage: Inode -> string): map<Inode, File> {
    map i | i in files :: if files[i].synced then files[i] else File(garbage(i), true)
  }

  function Apply(s: State, a: Action): State
    requires Enabled(s, a)
  {
    match a
    case StartProcess(pid) => s.(counters := s.counters[pid := 0])
    case Begin(id, pid, body) =>
      var n := s.counters[pid];
      s.(counters := s.counters[pid := n + 1],
         saves := s.saves[id := Save(Temp(pid, n), body, Named)],
         submitted := s.submitted + {body})
    case Create(id) => Created(s, id)
    case Write(id, count) =>
      var save := s.saves[id];
      var written := save.phase.written + count;
      At(s.(files := s.files[save.phase.inode := File(save.body[..written], false)]), id, save.phase.(written := written))
    case Sync(id) =>
      var inode := s.saves[id].phase.inode;
      At(s.(files := s.files[inode := s.files[inode].(synced := true)]), id, Synced(inode))
    case Rename(id) =>
      var name := s.saves[id].name;
      Rebound(s, (s.dir - {name})[Target := s.dir[name]]).(saves := s.saves - {id})
    case Fail(id) => At(s, id, Failing)
    case CleanUp(id, removed) =>
      (if removed then Rebound(s, s.dir - {s.saves[id].name}) else s).(saves := s.saves - {id})
    case DropFuture(id) => s.(saves := s.saves - {id})
    case Kill(pid) =>
      s.(counters := s.counters - {pid}, saves := map i | i in s.saves && !Owned(s.saves[i].name, pid) :: s.saves[i])
    case PowerFails(dir, garbage) =>
      s.(files := Recovered(s.files, garbage), dir := dir, versions := {dir}, counters := map[], saves := map[])
  }

  predicate Owned(name: Name, pid: Pid) {
    name.Temp? && name.pid == pid
  }

  /** Actions that are not enabled do nothing, so every list of actions is a run. */
  function Step(s: State, a: Action): State {
    if Enabled(s, a) then Apply(s, a) else s
  }

  function Run(s: State, actions: seq<Action>): State
    decreases |actions|
  {
    if actions == [] then s else Run(Step(s, actions[0]), actions[1..])
  }

  /** What a reader of the target sees. */
  function ReadTarget(s: State): Option<string> {
    if Target in s.dir && s.dir[Target] in s.files then Some(s.files[s.dir[Target]].data) else None
  }

  // ------------------------------------------------------------- the invariant

  /** No two names share a file, and every named file exists. */
  predicate DirectoryOk(files: map<Inode, File>, dir: Directory) {
    (forall m :: m in dir ==> dir[m] in files) &&
    (forall m, n :: m in dir && n in dir && m != n ==> dir[m] != dir[n])
  }

  predicate Allowed(content: Option<string>, original: Option<string>, submitted: set<string>) {
    content == original || (content.Some? && content.value in submitted)
  }

  /** In this directory the target is whole and safely on the disk. */
  predicate TargetOk(files: map<Inode, File>, dir: Directory, original: Option<string>, submitted: set<string>) {
    if Target in dir then
      dir[Target] in files && files[dir[Target]].synced && Allowed(Some(files[dir[Target]].data), original, submitted)
    else Allowed(None, original, submitted)
  }

  /** No temporary name leads to a file that is, or may again be, the target. */
  predicate Apart(dir: Directory, versions: set<Directory>) {
    forall m, v :: m in dir && m.Temp? && v in versions && Target in v ==> dir[m] != v[Target]
  }

  predicate VersionsOk(s: State, original: Option<string>) {
    forall v :: v in s.versions ==> DirectoryOk(s.files, v) && TargetOk(s.files, v, original, s.submitted)
  }

  predicate InodesOk(s: State) {
    forall i :: i in s.files ==> i < s.nextInode
  }

  /** A save works on its own file, under its own name. */
  predicate SaveOk(s: State, save: Save) {
    save.name.Temp? && save.name.pid in s.counters && save.name.n < s.counters[save.name.pid] &&
    save.body in s.submitted &&
    match save.phase
    case Writing(inode, written) =>
      save.name in s.dir && s.dir[save.name] == inode && inode in s.files && written <= |save.body| &&
      s.files[inode].data == save.body[..written]
    case Synced(inode) =>
      save.name in s.dir && s.dir[save.name] == inode && inode in s.files && s.files[inode] == File(save.body, true)
    case _ => true
  }

  predicate SavesOk(s: State) {
    forall i :: i in s.saves ==> SaveOk(s, s.saves[i])
  }

  predicate NamesDiffer(saves: map<SaveId, Save>) {
    forall i, j :: i in saves && j in saves && i != j ==> saves[i].name != saves[j].name
  }

  predicate Inv(s: State, original: Option<string>) {
    s.dir in s.versions && VersionsOk(s, original) && Apart(s.dir, s.versions) && InodesOk(s) &&
    SavesOk(s) && NamesDiffer(s.saves)
  }

  /** A start: the target on the disk, if there is one, and any leftovers of earlier crashes. */
  predicate Start(s: State) {
    s.versions == {s.dir} && s.saves == map[] && s.counters == map[] && s.submitted == {} &&
    DirectoryOk(s.files, s.dir) && InodesOk(s) && (Target in s.dir ==> s.files[s.dir[Target]].synced)
  }

  lemma StartInv(s: State)
    requires Start(s)
    ensures Inv(s, ReadTarget(s))
  {
  }

  // ---------------------------------------------------------------- the steps

  /** Changing a file no version has as its target. */
  lemma FileKeepsVersions(s: State, original: Option<string>, inode: Inode, file: File)
    requires VersionsOk(s, original) && forall v :: v in s.versions && Target in v ==> v[Target] != inode
    ensures VersionsOk(s.(files := s.files[inode := file]), original)
  {
  }

  lemma FreshIsNoTarget(s: State, original: Option<string>)
    requires VersionsOk(s, original) && InodesOk(s)
    ensures s.nextInode !in s.files
    ensures forall v :: v in s.versions ==> forall m :: m in v ==> v[m] != s.nextInode
  {
  }

  /** A save moves on, writing only its own file. */
  lemma ProgressKeepsInv(s: State, original: Option<string>, id: SaveId, file: File, phase: Phase)
    requires Inv(s, original) && id in s.saves && s.saves[id].name in s.dir
    requires var save := s.saves[id];
      SaveOk(s.(files := s.files[s.dir[save.name] := file]), save.(phase := phase))
    ensures Inv(At(s.(files := s.files[s.dir[s.saves[id].name] := file]), id, phase), original)
  {
  }

  lemma NewFileKeepsInv(s: State, original: Option<string>, id: SaveId)
    requires Inv(s, original) && id in s.saves && s.saves[id].phase.Named? && s.saves[id].name !in s.dir
    ensures Inv(Created(s, id), original)
  {
    var name, inode := s.saves[id].name, s.nextInode;
    FreshIsNoTarget(s, original);
    FileKeepsVersions(s, original, inode, File("", false));
    NewNameOk(s, name);
    NewNameTarget(s, original, name);
    NewFileKeepsSaves(s, id);
    hide Allowed, SaveOk, DirectoryOk, TargetOk;
  }

  lemma NewFileKeepsSaves(s: State, id: SaveId)
    requires SavesOk(s) && NamesDiffer(s.saves) && InodesOk(s)
    requires id in s.saves && s.saves[id].phase.Named? && s.saves[id].name !in s.dir
    ensures SavesOk(Created(s, id))
  {
    var s' := Created(s, id);
    forall i | i in s'.saves
      ensures SaveOk(s', s'.saves[i])
    {
      assert SaveOk(s, s.saves[i]);
    }
  }

  lemma NewNameOk(s: State, name: Name)
    requires DirectoryOk(s.files, s.dir) && name !in s.dir && s.nextInode !in s.files
    ensures DirectoryOk(s.files[s.nextInode := File("", false)], s.dir[name := s.nextInode])
  {
  }

  lemma NewNameTarget(s: State, original: Option<string>, name: Name)
    requires TargetOk(s.files, s.dir, original, s.submitted) && name.Temp? && s.nextInode !in s.files
    ensures TargetOk(s.files[s.nextInode := File("", false)], s.dir[name := s.nextInode], original, s.submitted)
  {
  }

  /** The rename: the one step by which the target changes. */
  lemma RenameKeepsInv(s: State, original: Option<string>, id: SaveId)
    requires Inv(s, original) && Enabled(s, Rename(id))
    ensures Inv(Apply(s, Rename(id)), original)
    ensures ReadTarget(Apply(s, Rename(id))) == Some(s.saves[id].body)
  {
  }

  /** No file and no name changes, and no save gains anything. */
  lemma SavesAloneKeepInv(s: State, s': State, original: Option<string>)
    requires Inv(s, original)
    requires s'.files == s.files && s'.dir == s.dir && s'.versions == s.versions
    requires s'.submitted == s.submitted && s'.nextInode == s.nextInode
    requires forall i :: i in s'.saves ==>
      i in s.saves && s'.saves[i].name == s.saves[i].name && (SaveOk(s, s.saves[i]) ==> SaveOk(s', s'.saves[i]))
    ensures Inv(s', original)
  {
    hide TargetOk, DirectoryOk, Apart, SaveOk;
  }

  lemma LeaveKeepsInv(s: State, original: Option<string>, a: Action)
    requires Inv(s, original) && Enabled(s, a) && (a.DropFuture? || a.Kill? || a.Fail? || a.StartProcess?)
    ensures Inv(Apply(s, a), original)
  {
    hide Inv;
    SavesAloneKeepInv(s, Apply(s, a), original);
  }

  lemma BeginKeepsInv(s: State, original: Option<string>, a: Action)
    requires Inv(s, original) && Enabled(s, a) && a.Begin?
    ensures Inv(Apply(s, a), original)
  {
  }

  lemma CleanUpKeepsInv(s: State, original: Option<string>, id: SaveId, removed: bool)
    requires Inv(s, original) && Enabled(s, CleanUp(id, removed))
    ensures Inv(Apply(s, CleanUp(id, removed)), original)
  {
    var save := s.saves[id];
    var s' := Apply(s, CleanUp(id, removed));
    assert SaveOk(s, save);
    assert DirectoryOk(s.files, s'.dir) && TargetOk(s.files, s'.dir, original, s.submitted) && Apart(s'.dir, s'.versions);
    forall i | i in s'.saves
      ensures SaveOk(s', s'.saves[i])
    {
      assert SaveOk(s, s.saves[i]) && s.saves[i].name != save.name;
    }
    hide SaveOk, TargetOk, DirectoryOk, Apart;
  }

  lemma PowerFailureKeepsInv(s: State, original: Option<string>, dir: Directory, garbage: Inode -> string)
    requires Inv(s, original) && dir in s.versions
    ensures Inv(Apply(s, PowerFails(dir, garbage)), original)
  {
  }

  lemma CreateKeepsInv(s: State, original: Option<string>, id: SaveId)
    requires Inv(s, original) && Enabled(s, Create(id))
    ensures Inv(Apply(s, Create(id)), original)
  {
    var save := s.saves[id];
    if save.name in s.dir {
      assert SaveOk(s, save);
      assert save.body[..0] == "";
      ProgressKeepsInv(s, original, id, File("", false), Writing(s.dir[save.name], 0));
    } else {
      NewFileKeepsInv(s, original, id);
    }
  }

  lemma WriteKeepsInv(s: State, original: Option<string>, a: Action)
    requires Inv(s, original) && Enabled(s, a) && (a.Write? || a.Sync?)
    ensures Inv(Apply(s, a), original)
  {
    var save := s.saves[a.id];
    assert SaveOk(s, save);
    var inode := save.phase.inode;
    if a.Write? {
      var written := save.phase.written + a.count;
      ProgressKeepsInv(s, original, a.id, File(save.body[..written], false), Writing(inode, written));
    } else {
      assert save.body[..|save.body|] == save.body;
      ProgressKeepsInv(s, original, a.id, s.files[inode].(synced := true), Synced(inode));
    }
  }

  lemma StepKeepsInv(s: State, original: Option<string>, a: Action)
    requires Inv(s, original)
    ensures Inv(Step(s, a), original)
  {
    hide Inv, Apply;
    if Enabled(s, a) {
      match a {
        case Begin(_, _, _) => BeginKeepsInv(s, original, a);
        case Create(id) => CreateKeepsInv(s, original, id);
        case Write(_, _) => WriteKeepsInv(s, original, a);
        case Sync(_) => WriteKeepsInv(s, original, a);
        case Rename(id) => RenameKeepsInv(s, original, id);
        case CleanUp(id, removed) => CleanUpKeepsInv(s, original, id, removed);
        case PowerFails(dir, garbage) => PowerFailureKeepsInv(s, original, dir, garbage);
        case _ => LeaveKeepsInv(s, original, a);
      }
    }
  }

  lemma {:induction false} RunKeepsInv(s: State, original: Option<string>, actions: seq<Action>)
    requires Inv(s, original)
    ensures Inv(Run(s, actions), original)
    decreases |actions|
  {
    hide Inv, Step;
    if actions == [] {
    } else {
      StepKeepsInv(s, original, actions[0]);
      RunKeepsInv(Step(s, actions[0]), original, actions[1..]);
    }
  }

  lemma {:induction false} SubmittedBegan(s: State, actions: seq<Action>)
    ensures forall body :: body in Run(s, actions).submitted ==>
      body in s.submitted || exists k :: 0 <= k < |actions| && actions[k].Begin? && actions[k].body == body
    decreases |actions|
  {
    if actions == [] {
    } else {
      var s' := Step(s, actions[0]);
      SubmittedBegan(s', actions[1..]);
      forall body | body in Run(s, actions).submitted && body !in s.submitted
        ensures exists k :: 0 <= k < |actions| && actions[k].Begin? && actions[k].body == body
      {
        if body in s'.submitted {
          assert actions[0].Begin? && actions[0].body == body;
        } else {
          var k :| 0 <= k < |actions[1..]| && actions[1..][k].Begin? && actions[1..][k].body == body;
          assert actions[k + 1] == actions[1..][k];
        }
      }
    }
  }

  // ------------------------------------------------------------- main results

  /**
   MAIN: whatever saves run and whatever fails, the target holds what it held at
   the start or the whole body of one save begun on the way, never part of one or a mix.
   */
  lemma TargetIsNeverTorn(s: State, actions: seq<Action>)
    requires Start(s)
    ensures var now := ReadTarget(Run(s, actions));
      now == ReadTarget(s) || exists k :: 0 <= k < |actions| && actions[k].Begin? && now == Some(actions[k].body)
  {
    SubmittedBegan(s, actions);
    StartInv(s);
    RunKeepsInv(s, ReadTarget(s), actions);
    var s' := Run(s, actions);
    assert DirectoryOk(s'.files, s'.dir) && TargetOk(s'.files, s'.dir, ReadTarget(s), s'.submitted);
  }

  /** Processes, futures and the power can go at any moment; only a sync keeps a written body from a power failure. */
  lemma AnythingMayFailAnyTime(s: State, id: SaveId, pid: Pid, count: nat, garbage: Inode -> string)
    ensures Enabled(s, Kill(pid)) && (Enabled(s, DropFuture(id)) <==> id in s.saves)
    ensures s.dir in s.versions ==> Enabled(s, PowerFails(s.dir, garbage))
    ensures Enabled(s, Write(id, count)) ==>
      var inode, written := s.saves[id].phase.inode, Step(s, Write(id, count));
      inode in written.files && Recovered(written.files, garbage)[inode].data == garbage(inode)
    ensures Enabled(s, Sync(id)) ==>
      var inode, synced := s.saves[id].phase.inode, Step(s, Sync(id));
      inode in synced.files && Recovered(synced.files, garbage)[inode].data == s.files[inode].data
  {
  }

  /** What a power failure leaves on the disk no later one changes. */
  lemma RecoveredStays(files: map<Inode, File>, garbage: Inode -> string, later: Inode -> string)
    ensures Recovered(Recovered(files, garbage), later) == Recovered(files, garbage)
  {
  }

  /** MAIN: nothing but a rename or a power failure changes what a reader sees. */
  lemma OnlyRenameChangesTarget(s: State, original: Option<string>, a: Action)
    requires Inv(s, original) && !a.Rename? && !a.PowerFails?
    ensures ReadTarget(Step(s, a)) == ReadTarget(s)
  {
  }

  /**
   The directory is not synced, so a save that has succeeded outlives its process
   but not every power failure: the earlier target may come back.
   */
  lemma SuccessMayBeUndone(s: State, original: Option<string>, id: SaveId, pid: Pid, garbage: Inode -> string)
    requires Inv(s, original) && Enabled(s, Rename(id))
    ensures var saved := Step(s, Rename(id));
      ReadTarget(saved) == ReadTarget(Step(saved, Kill(pid))) == Some(s.saves[id].body) &&
      Enabled(saved, PowerFails(s.dir, garbage)) && ReadTarget(Step(saved, PowerFails(s.dir, garbage))) == ReadTarget(s)
  {
  }
}
