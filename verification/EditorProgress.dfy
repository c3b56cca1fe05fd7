/** What editors can still do when locks are held until unlock_record: whoever holds a lock can give it up and come
    back to the menu, and whoever edits a record can save, whatever the others have done. */
module EditorProgress {
  import opened Bytes
  import opened RecordEditor

  /** Steps of process `i` alone take `s` to `t`. */
  ghost predicate LeadsAlone(s: State, t: State, i: nat) {
    exists run: seq<State>, acts: seq<Action> ::
      Steps(HeldUntilUnlock, run, acts) && run[0] == s && run[|acts|] == t && AllOf(acts, i)
  }

  predicate AllOf(acts: seq<Action>, i: nat) { forall k :: 0 <= k < |acts| ==> acts[k].Step? && acts[k].i == i }

  lemma AloneNowhere(s: State, i: nat)
    ensures LeadsAlone(s, s, i)
  {
    assert Steps(HeldUntilUnlock, [s], []) && AllOf([], i);
  }

  lemma StepAlone(s: State, edit: Record, t: State, i: nat)
    requires Enabled(s, Step(i, edit)) && LeadsAlone(Apply(HeldUntilUnlock, s, Step(i, edit)), t, i)
    ensures LeadsAlone(s, t, i)
  {
    hide Enabled, Apply;
    var d, a := HeldUntilUnlock, Step(i, edit);
    var run: seq<State>, acts: seq<Action> :|
      Steps(d, run, acts) && run[0] == Apply(d, s, a) && run[|acts|] == t && AllOf(acts, i);
    var run', acts' := [s] + run, [a] + acts;
    forall k | 0 <= k < |acts'|
      ensures Enabled(run'[k], acts'[k]) && run'[k + 1] == Apply(d, run'[k], acts'[k])
      ensures acts'[k].Step? && acts'[k].i == i
    {
      if k > 0 { assert run'[k] == run[k - 1] && run'[k + 1] == run[k] && acts'[k] == acts[k - 1]; }
    }
    assert Steps(d, run', acts') && run'[|acts'|] == t && AllOf(acts', i);
  }

  /** The locks are as they should be and every process between its second read and its write sees its record. */
  ghost predicate Good(s: State) {
    LockInv(s) && forall i :: 0 <= i < |s.procs| ==> SeesRecord(s, s.procs[i].pc)
  }

  lemma StepKeepsGood(s: State, a: Action)
    requires Good(s) && Enabled(s, a)
    ensures Good(Apply(HeldUntilUnlock, s, a))
  {
    hide Apply, Enabled, LockInv, SeesRecord;
    StepKeepsLocks(s, a);
    StepKeepsSight(s, a);
  }

  lemma AlwaysGood(run: seq<State>, acts: seq<Action>, k: nat)
    requires IsRun(HeldUntilUnlock, run, acts) && k < |run|
    ensures Good(run[k])
  {
    hide Apply, Enabled, Init, LockInv, SeesRecord;
    ReachableHeld(run, acts, k);
  }

  /** A process's own step changes nobody else. */
  lemma OthersStay(s: State, i: nat, edit: Record)
    requires i < |s.procs| && StepEnabled(s, i)
    ensures var s' := ProcessStep(HeldUntilUnlock, s, i, edit);
            |s'.procs| == |s.procs| && |s'.file| == |s.file| && |s'.log| >= |s.log|
            && forall j :: 0 <= j < |s.procs| && j != i ==> s'.procs[j] == s.procs[j]
  {
    hide AfterClose, Unlocked;
  }

  // ----- back to the menu

  /** Steps back to the menu when the user changes nothing more. */
  function StepsHome(pc: PC): nat {
    match pc
    case CloseFile(_) => 1
    case UnlockDone(_) => 2
    case Editing(_, _) => 2
    case PutClose(_) => 3
    case FirstClose(_, _) => 3
    case Put(_, _, _) => 4
    case FirstRead(_) => 4
    case UnlockRetry(_, _) => 5
    case Compare(_, _, _, _) => 6
    case RereadClose(_, _, _, _) => 7
    case Reread(_, _, _) => 8
    case LockWait(_, _, _) => 9
    case _ => 0
  }

  /** A process that is not kept out by a lock comes home on its own. */
  lemma {:induction false} ComesHome(s: State, i: nat) returns (t: State)
    requires Good(s) && i < |s.procs| && !s.procs[i].pc.Dead? && (s.procs[i].pc.Menu? || StepEnabled(s, i))
    ensures LeadsAlone(s, t, i) && Good(t) && |t.procs| == |s.procs| && |t.file| == |s.file| && t.procs[i].pc.Menu?
    ensures |t.log| >= |s.log| && forall j :: 0 <= j < |s.procs| && j != i ==> t.procs[j] == s.procs[j]
    decreases StepsHome(s.procs[i].pc)
  {
    hide LeadsAlone, Good;
    if s.procs[i].pc.Menu? {
      AloneNowhere(s, i);
      t := s;
    } else {
      var edit := if s.procs[i].pc.Editing? then s.procs[i].pc.rec else s.file[0];
      var s' := Apply(HeldUntilUnlock, s, Step(i, edit));
      StepKeepsGood(s, Step(i, edit));
      OthersStay(s, i, edit);
      StepsOn(s, i, edit);
      t := ComesHome(s', i);
      StepAlone(s, edit, t, i);
    }
  }

  lemma StepsOn(s: State, i: nat, edit: Record)
    requires i < |s.procs| && StepEnabled(s, i) && (s.procs[i].pc.Editing? ==> edit == s.procs[i].pc.rec)
    ensures var pc, s' := s.procs[i].pc, ProcessStep(HeldUntilUnlock, s, i, edit);
            && i < |s'.procs| && StepsHome(s'.procs[i].pc) < StepsHome(pc)
            && !s'.procs[i].pc.Dead? && (s'.procs[i].pc.Menu? || StepEnabled(s', i))
  {
    hide AfterClose, Unlocked;
  }

  lemma NobodyHolds(s: State, r: nat)
    requires LockInv(s) && r < |s.locks|
    requires forall j :: 0 <= j < |s.procs| ==> !(HoldsLock(s.procs[j].pc) && s.procs[j].pc.r == r)
    ensures s.locks[r] == Free
  {
  }

  lemma HolderIs(s: State, i: nat, r: nat)
    requires LockInv(s) && r < |s.locks| && s.locks[r] == HeldBy(i)
    ensures i < |s.procs| && HoldsLock(s.procs[i].pc) && s.procs[i].pc.r == r && StepEnabled(s, i)
    ensures forall j :: 0 <= j < |s.procs| && j != i ==> !(HoldsLock(s.procs[j].pc) && s.procs[j].pc.r == r)
  {
  }

  lemma HolderGoesHome(s: State, i: nat, r: nat) returns (t: State)
    requires Good(s) && r < |s.locks| && s.locks[r] == HeldBy(i)
    ensures LeadsAlone(s, t, i) && Good(t) && |t.procs| == |s.procs| && |t.file| == |s.file| == |t.locks|
    ensures i < |t.procs| && t.procs[i].pc.Menu? && t.locks[r] == Free
    ensures |t.log| >= |s.log| && forall j :: 0 <= j < |s.procs| && j != i ==> t.procs[j] == s.procs[j]
  {
    hide LeadsAlone, SeesRecord;
    HolderIs(s, i, r);
    t := ComesHome(s, i);
    NobodyHolds(t, r);
  }

  /** Every lock that is held can be given up: its holder, on its own, comes back to the menu, and then it is free. */
  lemma LocksAreGivenUp(run: seq<State>, acts: seq<Action>, k: nat, i: nat, r: nat)
    requires IsRun(HeldUntilUnlock, run, acts) && k < |run| && r < |run[k].locks| && run[k].locks[r] == HeldBy(i)
    ensures exists t :: LeadsAlone(run[k], t, i) && r < |t.locks| && t.locks[r] == Free
              && i < |t.procs| && t.procs[i].pc.Menu?
  {
    hide IsRun, LeadsAlone, Good;
    AlwaysGood(run, acts, k);
    SameSizes(run[k]);
    var t := HolderGoesHome(run[k], i, r);
  }

  lemma SameSizes(s: State)
    requires Good(s)
    ensures |s.locks| == |s.file|
  {
  }

  // ----- a save

  /** In the cycle from the first read to the write. */
  predicate Editor(pc: PC) { pc.FirstRead? || HasRead(pc) }

  /** How the editor stands: 0 to save next time round, 2 to find a conflict, 1 between the two. */
  function Round(s: State, pc: PC): nat
    requires InFile(s, pc)
  {
    if pc.UnlockRetry? then 1 else if HasRead(pc) && pc.rec != s.file[pc.r] then 2 else 0
  }

  function StepsToSave(pc: PC): nat {
    match pc
    case FirstRead(_) => 8
    case FirstClose(_, _) => 7
    case Editing(_, _) => 6
    case LockWait(_, _, _) => 5
    case Reread(_, _, _) => 4
    case RereadClose(_, _, _, _) => 3
    case Compare(_, _, _, _) => 2
    case _ => 1
  }

  /** A record other than `rec`. */
  function Other(rec: Record): (other: Record)
    ensures other != rec
  {
    var first: Byte := if rec[0] == 255 then 0 else rec[0] + 1;
    var other := rec[0 := first];
    assert other[0] != rec[0];
    other
  }

  /** The last commit is the one of process `i` to record `r`, and came after `s`. */
  predicate Saved(s: State, t: State, i: nat, r: nat) {
    |t.log| > |s.log| && t.log[|t.log| - 1].proc == i && t.log[|t.log| - 1].r == r
  }

  lemma EditorSteps(s: State, i: nat, edit: Record)
    requires Good(s) && i < |s.procs| && Editor(s.procs[i].pc) && StepEnabled(s, i)
    requires s.procs[i].pc.Editing? ==> edit != s.procs[i].pc.rec
    ensures var pc, s' := s.procs[i].pc, ProcessStep(HeldUntilUnlock, s, i, edit);
            && i < |s'.procs| && |s'.log| >= |s.log|
            && (pc.Put? ==> Saved(s, s', i, pc.r))
            && (!pc.Put? ==>
                  (Editor(s'.procs[i].pc) && s'.procs[i].pc.r == pc.r && InFile(s', s'.procs[i].pc)
                   && s'.file == s.file && s'.log == s.log
                   && (Round(s', s'.procs[i].pc) < Round(s, pc)
                       || (Round(s', s'.procs[i].pc) == Round(s, pc)
                           && StepsToSave(s'.procs[i].pc) < StepsToSave(pc)))))
  {
    hide AfterClose, Unlocked, LockInv;
    assert SeesRecord(s, s.procs[i].pc);
  }

  /** With the lock of its record free, or its own, an editor saves on its own. */
  lemma {:induction false} SavesAlone(s: State, i: nat) returns (t: State)
    requires Good(s) && i < |s.procs| && Editor(s.procs[i].pc) && InFile(s, s.procs[i].pc)
    requires s.locks[s.procs[i].pc.r] == Free || s.locks[s.procs[i].pc.r] == HeldBy(i)
    ensures LeadsAlone(s, t, i) && Saved(s, t, i, s.procs[i].pc.r)
    decreases Round(s, s.procs[i].pc), StepsToSave(s.procs[i].pc)
  {
    hide LeadsAlone, Good, Round, StepsToSave, Saved;
    var pc := s.procs[i].pc;
    var edit := if pc.Editing? then Other(pc.rec) else s.file[pc.r];
    var s' := Apply(HeldUntilUnlock, s, Step(i, edit));
    EditorSteps(s, i, edit);
    StepKeepsGood(s, Step(i, edit));
    if pc.Put? {
      AloneNowhere(s', i);
      t := s';
    } else {
      LockStays(s, i, edit);
      t := SavesAlone(s', i);
      SavedSince(s, s', t, i, pc.r);
    }
    StepAlone(s, edit, t, i);
  }

  lemma SavedSince(s: State, s': State, t: State, i: nat, r: nat)
    requires s'.log == s.log && Saved(s', t, i, r)
    ensures Saved(s, t, i, r)
  {
  }

  lemma LockStays(s: State, i: nat, edit: Record)
    requires i < |s.procs| && StepEnabled(s, i) && Editor(s.procs[i].pc)
    requires s.locks[s.procs[i].pc.r] == Free || s.locks[s.procs[i].pc.r] == HeldBy(i)
    ensures var s', r := ProcessStep(HeldUntilUnlock, s, i, edit), s.procs[i].pc.r;
            r < |s'.locks| && (s'.locks[r] == Free || s'.locks[r] == HeldBy(i))
  {
  }

  /** Steps of one process and then of another. */
  ghost predicate LeadsBy(s: State, t: State, j: nat, i: nat) {
    exists u :: LeadsAlone(s, u, j) && LeadsAlone(u, t, i)
  }

  /** Every editor can save, also one whose copy of the record is out of date: once the holder of the lock, if it is
      somebody else, has come home, it commits to its record on its own. */
  lemma EditorsCanSave(run: seq<State>, acts: seq<Action>, k: nat, i: nat)
    requires IsRun(HeldUntilUnlock, run, acts) && k < |run| && i < |run[k].procs| && Editor(run[k].procs[i].pc)
    ensures exists t, j :: LeadsBy(run[k], t, j, i) && Saved(run[k], t, i, run[k].procs[i].pc.r)
  {
    hide IsRun, LeadsAlone, Good, Saved;
    AlwaysGood(run, acts, k);
    var s := run[k];
    var r := s.procs[i].pc.r;
    EditorInFile(s, i);
    if s.locks[r].HeldBy? && s.locks[r].i != i {
      var j := s.locks[r].i;
      HeldByProcess(s, r);
      var u := HolderGoesHome(s, j, r);
      EditorInFile(u, i);
      var t := SavesAlone(u, i);
      SavedLater(s, u, t, i, r);
      assert LeadsBy(s, t, j, i);
    } else {
      AloneNowhere(s, i);
      var t := SavesAlone(s, i);
      assert LeadsBy(s, t, i, i);
    }
  }

  lemma EditorInFile(s: State, i: nat)
    requires Good(s) && i < |s.procs| && Editor(s.procs[i].pc)
    ensures InFile(s, s.procs[i].pc) && s.procs[i].pc.r < |s.locks|
  {
  }

  lemma HeldByProcess(s: State, r: nat)
    requires Good(s) && r < |s.locks| && s.locks[r].HeldBy?
    ensures s.locks[r].i < |s.procs|
  {
  }

  lemma SavedLater(s: State, u: State, t: State, i: nat, r: nat)
    requires |u.log| >= |s.log| && Saved(u, t, i, r)
    ensures Saved(s, t, i, r)
  {
  }
}
