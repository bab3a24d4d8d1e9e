/**
 One call of `save` (src/config/mod.rs) from beginning to end, over the steps of
 `ConfigSave`: create, write in pieces, sync, rename, and clean up on failure.
 */
module ConfigStore {
  import opened Wrappers
  import opened ConfigSave

  /** What a step does to the save that takes it, and to nothing else. */
  lemma SaveSteps(s: State, original: Option<string>, a: Action)
    requires Inv(s, original) && Enabled(s, a)
    requires a.Create? || a.Write? || a.Sync? || a.Fail?
    ensures Inv(Step(s, a), original) && ReadTarget(Step(s, a)) == ReadTarget(s) && Step(s, a).counters == s.counters
    ensures var s' := Step(s, a);
      a.id in s'.saves && s'.saves == s.saves[a.id := s.saves[a.id].(phase := s'.saves[a.id].phase)] &&
      match a
      case Create(_) => s'.saves[a.id].phase.Writing? && s'.saves[a.id].phase.written == 0
      case Write(_, count) =>
        s'.saves[a.id].phase.Writing? && s'.saves[a.id].phase.written == s.saves[a.id].phase.written + count
      case Sync(_) => s'.saves[a.id].phase.Synced?
      case _ => s'.saves[a.id].phase.Failing?
  {
    hide Inv, ReadTarget;
    StepKeepsInv(s, original, a);
    OnlyRenameChangesTarget(s, original, a);
  }

  lemma Begins(s: State, original: Option<string>, id: SaveId, pid: Pid, body: string)
    requires Inv(s, original) && id !in s.saves && pid in s.counters
    ensures var s' := Step(s, Begin(id, pid, body));
      Inv(s', original) && ReadTarget(s') == ReadTarget(s) && s'.counters == s.counters[pid := s.counters[pid] + 1] &&
      s'.saves == s.saves[id := Save(Temp(pid, s.counters[pid]), body, Named)]
  {
  }

  lemma SaveHasFile(s: State, original: Option<string>, id: SaveId)
    requires Inv(s, original) && id in s.saves
    ensures s.saves[id].phase.Writing? ==> s.saves[id].phase.inode in s.files
    ensures s.saves[id].phase.Synced? ==> s.saves[id].name in s.dir
    ensures s.saves[id].name.Temp?
  {
  }

  /** Since `before` only the save `id` has moved, and nothing of it shows yet. */
  ghost predicate Underway(before: State, s: State, original: Option<string>, saves: map<SaveId, ConfigSave.Save>,
                           id: SaveId, save: ConfigSave.Save) {
    Inv(s, original) && ReadTarget(s) == ReadTarget(before) && s.counters == before.counters &&
    id in s.saves && s.saves == saves[id := save.(phase := s.saves[id].phase)]
  }

  lemma Sets(s: State, original: Option<string>, saves: map<SaveId, ConfigSave.Save>, id: SaveId, save: ConfigSave.Save)
    requires Inv(s, original) && s.saves == saves[id := save] && save.phase.Named?
    ensures Underway(s, s, original, saves, id, save) && Enabled(s, Create(id))
  {
    hide Inv, ReadTarget;
  }

  lemma Advances(before: State, s: State, original: Option<string>, saves: map<SaveId, ConfigSave.Save>,
                 id: SaveId, save: ConfigSave.Save, a: Action)
    requires Underway(before, s, original, saves, id, save) && Enabled(s, a)
    requires (a.Create? || a.Write? || a.Sync?) && a.id == id && id in s.saves
    requires a.Write? ==> s.saves[id].phase.Writing?
    ensures var s' := Step(s, a);
      Underway(before, s', original, saves, id, save) && id in s'.saves &&
      match a
      case Create(_) => s'.saves[id].phase.Writing? && s'.saves[id].phase.written == 0
      case Write(_, count) => s'.saves[id].phase.Writing? && s'.saves[id].phase.written == s.saves[id].phase.written + count
      case _ => s'.saves[id].phase.Synced?
  {
    hide Inv, ReadTarget, Step;
    SaveSteps(s, original, a);
  }

  /** One of the first `asked` operations failed. */
  predicate FailedWithin(fails: nat -> bool, asked: nat) {
    exists k: nat :: k < asked && fails(k)
  }

  /** Nothing more is tried after an operation has failed. */
  predicate FirstFailureEnds(fails: nat -> bool, asked: nat) {
    forall k: nat :: k + 1 < asked ==> !fails(k)
  }

  lemma NothingTried(fails: nat -> bool)
    ensures !FailedWithin(fails, 0)
  {
  }

  lemma OneMoreTried(fails: nat -> bool, k: nat)
    requires !FailedWithin(fails, k)
    ensures (FailedWithin(fails, k + 1) <==> fails(k)) && FirstFailureEnds(fails, k + 1)
  {
  }

  class Store {
    var state: State

    constructor (start: State)
      requires Start(start)
      ensures state == start && Inv(state, ReadTarget(start))
    {
      state := start;
      StartInv(start);
    }

    /**
     `fails(k)` says whether the k-th operation of this call fails, `pieces(k)` how
     much the k-th write takes, `removed` whether the clean-up works; `asked` is the
     number of operations up to the rename that were tried.
     */
    method Save(ghost original: Option<string>, id: SaveId, pid: Pid, body: string,
                fails: nat -> bool, pieces: nat -> nat, removed: bool) returns (ok: bool, asked: nat)
      requires Inv(state, original) && id !in state.saves && pid in state.counters
      modifies this
      ensures Inv(state, original) && state.saves == old(state.saves)
      ensures state.counters == old(state.counters)[pid := old(state.counters[pid]) + 1]
      ensures ReadTarget(state) == if ok then Some(body) else old(ReadTarget(state))
      ensures ok || removed ==> Temp(pid, old(state.counters[pid])) !in state.dir
      ensures ok <==> !FailedWithin(fails, asked)
      ensures FirstFailureEnds(fails, asked) && 1 <= asked <= |body| + 3
    {
      ghost var saves := state.saves;
      var name := Temp(pid, state.counters[pid]);
      Begins(state, original, id, pid, body);
      NothingTried(fails);
      OneMoreTried(fails, 0);
      hide Inv, ReadTarget, Step, Enabled, FailedWithin, FirstFailureEnds;
      state := Step(state, Begin(id, pid, body));
      ok, asked := !fails(0), 1;
      if ok {
        ok, asked := WriteAndSync(original, saves, id, name, body, fails, pieces);
      }
      if ok {
        Renames(state, original, saves, id);
        state := Step(state, Rename(id));
      } else {
        Abandons(state, original, saves, id, removed);
        state := Step(state, Fail(id));
        state := Step(state, CleanUp(id, removed));
      }
    }

    /** Create, write until the body is out, sync; `ok` if nothing failed, the rename to come included. */
    method WriteAndSync(ghost original: Option<string>, ghost saves: map<SaveId, ConfigSave.Save>, id: SaveId, name: Name, body: string,
                        fails: nat -> bool, pieces: nat -> nat) returns (ok: bool, asked: nat)
      requires Inv(state, original) && state.saves == saves[id := ConfigSave.Save(name, body, Named)] && !fails(0)
      modifies this
      ensures Inv(state, original) && ReadTarget(state) == old(ReadTarget(state)) && state.counters == old(state.counters)
      ensures id in state.saves && state.saves == saves[id := ConfigSave.Save(name, body, state.saves[id].phase)]
      ensures !state.saves[id].phase.Failing?
      ensures ok ==> state.saves[id].phase.Synced?
      ensures (ok <==> !FailedWithin(fails, asked)) && FirstFailureEnds(fails, asked)
      ensures 1 <= asked <= |body| + 3
    {
      ghost var before, save := state, ConfigSave.Save(name, body, Named);
      NothingTried(fails);
      OneMoreTried(fails, 0);
      Sets(state, original, saves, id, save);
      hide Inv, ReadTarget, Step, Enabled, FailedWithin, FirstFailureEnds, Underway;
      Advances(before, state, original, saves, id, save, Create(id));
      state := Step(state, Create(id));
      ok, asked := WriteAll(original, saves, before, id, save, body, fails, pieces);
      if ok {
        OneMoreTried(fails, asked);
        ok, asked := !fails(asked), asked + 1;
        if ok {
          WritesOn(before, state, original, saves, id, save, 0);
          Advances(before, state, original, saves, id, save, Sync(id));
          state := Step(state, Sync(id));
          OneMoreTried(fails, asked);
          ok, asked := !fails(asked), asked + 1;
        }
      }
      UnderwayHas(before, state, original, saves, id, save);
    }

    /** `write_all`: piece by piece until the body is out, or a write fails. */
    method WriteAll(ghost original: Option<string>, ghost saves: map<SaveId, ConfigSave.Save>, ghost before: State, id: SaveId,
                    ghost save: ConfigSave.Save, body: string, fails: nat -> bool, pieces: nat -> nat) returns (ok: bool, asked: nat)
      requires Underway(before, state, original, saves, id, save) && save.body == body && !FailedWithin(fails, 1)
      requires id in state.saves && state.saves[id].phase.Writing? && state.saves[id].phase.written == 0
      modifies this
      ensures Underway(before, state, original, saves, id, save) && id in state.saves && state.saves[id].phase.Writing?
      ensures ok ==> state.saves[id].phase.written == |body| && !FailedWithin(fails, asked)
      ensures !ok ==> FailedWithin(fails, asked) && FirstFailureEnds(fails, asked)
      ensures 1 <= asked <= |body| + 1
    {
      hide Inv, ReadTarget, Step, Enabled, FailedWithin, FirstFailureEnds, Underway;
      UnderwayHas(before, state, original, saves, id, save);
      var written := 0;
      asked := 1;
      while written < |body|
        invariant Underway(before, state, original, saves, id, save) && id in state.saves
        invariant state.saves[id].phase.Writing? && state.saves[id].phase.written == written <= |body|
        invariant 1 <= asked <= written + 1 && !FailedWithin(fails, asked)
      {
        OneMoreTried(fails, asked);
        if fails(asked) {
          return false, asked + 1;
        }
        var count := if 1 <= pieces(asked) <= |body| - written then pieces(asked) else |body| - written;
        WritesOn(before, state, original, saves, id, save, count);
        Advances(before, state, original, saves, id, save, Write(id, count));
        state := Step(state, Write(id, count));
        UnderwayHas(before, state, original, saves, id, save);
        written, asked := written + count, asked + 1;
      }
      ok := true;
    }
  }

  lemma UnderwayHas(before: State, s: State, original: Option<string>, saves: map<SaveId, ConfigSave.Save>,
                    id: SaveId, save: ConfigSave.Save)
    requires Underway(before, s, original, saves, id, save)
    ensures Inv(s, original) && ReadTarget(s) == ReadTarget(before) && s.counters == before.counters
    ensures id in s.saves && s.saves == saves[id := ConfigSave.Save(save.name, save.body, s.saves[id].phase)]
  {
  }

  /** While the body is not out the next write can be made, and once it is, the file can be synced. */
  lemma WritesOn(before: State, s: State, original: Option<string>, saves: map<SaveId, ConfigSave.Save>,
                 id: SaveId, save: ConfigSave.Save, count: nat)
    requires Underway(before, s, original, saves, id, save) && id in s.saves && s.saves[id].phase.Writing?
    ensures s.saves[id].phase.written + count <= |save.body| ==> Enabled(s, Write(id, count))
    ensures s.saves[id].phase.written == |save.body| ==> Enabled(s, Sync(id))
  {
    hide Inv, ReadTarget;
    SaveHasFile(s, original, id);
  }

  lemma Renames(s: State, original: Option<string>, saves: map<SaveId, ConfigSave.Save>, id: SaveId)
    requires Inv(s, original) && id in s.saves && s.saves[id].phase.Synced? && id !in saves
    requires s.saves == saves[id := s.saves[id]]
    ensures var s' := Step(s, Rename(id));
      Inv(s', original) && s'.saves == saves && s'.counters == s.counters && s.saves[id].name !in s'.dir &&
      ReadTarget(s') == Some(s.saves[id].body)
  {
    SaveHasFile(s, original, id);
    RenameKeepsInv(s, original, id);
    hide Inv, ReadTarget;
    assert Step(s, Rename(id)).saves == saves;
  }

  lemma CleansUp(s: State, original: Option<string>, saves: map<SaveId, ConfigSave.Save>, id: SaveId, removed: bool)
    requires Inv(s, original) && id in s.saves && s.saves[id].phase.Failing? && id !in saves
    requires s.saves == saves[id := s.saves[id]]
    ensures var s' := Step(s, CleanUp(id, removed));
      Inv(s', original) && s'.saves == saves && s'.counters == s.counters && ReadTarget(s') == ReadTarget(s) &&
      (removed ==> s.saves[id].name !in s'.dir)
  {
    StepKeepsInv(s, original, CleanUp(id, removed));
    OnlyRenameChangesTarget(s, original, CleanUp(id, removed));
    hide Inv, ReadTarget;
    assert Step(s, CleanUp(id, removed)).saves == saves;
  }

  lemma Abandons(s: State, original: Option<string>, saves: map<SaveId, ConfigSave.Save>, id: SaveId, removed: bool)
    requires Inv(s, original) && id in s.saves && !s.saves[id].phase.Failing? && id !in saves
    requires s.saves == saves[id := s.saves[id]]
    ensures var s' := Step(Step(s, Fail(id)), CleanUp(id, removed));
      Inv(s', original) && s'.saves == saves && s'.counters == s.counters && ReadTarget(s') == ReadTarget(s) &&
      (removed ==> s.saves[id].name !in s'.dir)
  {
    hide Inv, ReadTarget, Step;
    SaveSteps(s, original, Fail(id));
    CleansUp(Step(s, Fail(id)), original, saves, id, removed);
  }
}
