/** What the actions of a run say about its editors: which record each works on, what it read first, and what it
    writes. */
module EditorHistory {
  import opened RecordEditor

  datatype Option<T> = None | Some(value: T)

  /** The record process `i` was last told to modify. */
  function Chosen(acts: seq<Action>, k: nat, i: nat): Option<nat>
    requires k <= |acts|
  {
    if k == 0 then None
    else if acts[k - 1].Choose? && acts[k - 1].i == i then Some(acts[k - 1].r) else Chosen(acts, k - 1, i)
  }

  /** Process `i` asks its user for an edit. */
  predicate Asks(s: State, a: Action, i: nat) {
    a.Step? && a.i == i && i < |s.procs| && s.procs[i].pc.Editing?
  }

  /** What the user of process `i` last made of a record. */
  function Edited(run: seq<State>, acts: seq<Action>, k: nat, i: nat): Option<Record>
    requires k <= |acts| <= |run|
  {
    if k == 0 then None
    else if Asks(run[k - 1], acts[k - 1], i) then Some(acts[k - 1].wrk) else Edited(run, acts, k - 1, i)
  }

  /** Process `i` reads the record it is about to show its user. */
  predicate ReadsFirst(s: State, a: Action, i: nat) {
    a.Step? && a.i == i && i < |s.procs| && s.procs[i].pc.FirstRead?
  }

  /** What record `r` of the file was when process `i` last read it to show it to its user. */
  function Shown(run: seq<State>, acts: seq<Action>, k: nat, i: nat, r: nat): Option<Record>
    requires k <= |acts| <= |run|
  {
    if k == 0 then None
    else if ReadsFirst(run[k - 1], acts[k - 1], i) && r < |run[k - 1].file| then Some(run[k - 1].file[r])
    else Shown(run, acts, k - 1, i, r)
  }

  predicate HasEdit(pc: PC) { pc.LockWait? || pc.Reread? || pc.RereadClose? || pc.Compare? || pc.Put? }

  /** A busy process works on the record it was told to modify, has in hand what it was shown, and carries the edit
      its user made. */
  predicate WorksOn(pc: PC, chosen: Option<nat>, edited: Option<Record>, shown: Option<Record>) {
    && (!pc.Menu? && !pc.Dead? ==> chosen == Some(pc.r))
    && (HasEdit(pc) ==> edited == Some(pc.wrk))
    && (HasRead(pc) ==> shown == Some(pc.rec))
  }

  lemma StepWorksOn(d: Discipline, s: State, a: Action, i: nat, r: nat, chosen: Option<nat>,
                    edited: Option<Record>, shown: Option<Record>)
    requires Enabled(s, a) && i < |s.procs| && WorksOn(s.procs[i].pc, chosen, edited, shown)
    requires !s.procs[i].pc.Menu? && !s.procs[i].pc.Dead? ==> r == s.procs[i].pc.r
    ensures i < |Apply(d, s, a).procs|
    ensures WorksOn(Apply(d, s, a).procs[i].pc,
                    if a.Choose? && a.i == i then Some(a.r) else chosen,
                    if Asks(s, a, i) then Some(a.wrk) else edited,
                    if ReadsFirst(s, a, i) && r < |s.file| then Some(s.file[r]) else shown)
  {
    hide AfterClose, Unlocked, Release;
  }

  lemma StepStarts(d: Discipline, s: State, a: Action)
    requires Enabled(s, a)
    ensures var n := |s.procs|;
            if a.Start? then |Apply(d, s, a).procs| == n + 1 && Apply(d, s, a).procs[n].pc.Menu?
            else |Apply(d, s, a).procs| == n
  {
    hide AfterClose, Unlocked, Release;
  }

  /** Only the record that a process works on matters to it. */
  predicate IsRecordOf(s: State, i: nat, r: nat) {
    i < |s.procs| && !s.procs[i].pc.Menu? && !s.procs[i].pc.Dead? ==> r == s.procs[i].pc.r
  }

  /** In every state of every run each process works on what it was told to, from what it was shown, with what its
      user made of it. A retry is no exception: it shows and edits the same record again. */
  lemma {:induction false} EditorsWorkOn(d: Discipline, run: seq<State>, acts: seq<Action>, k: nat, i: nat, r: nat)
    requires IsRun(d, run, acts) && k < |run| && i < |run[k].procs| && IsRecordOf(run[k], i, r)
    ensures WorksOn(run[k].procs[i].pc, Chosen(acts, k, i), Edited(run, acts, k, i), Shown(run, acts, k, i, r))
  {
    if k > 0 {
      hide Apply, Enabled, WorksOn, Asks, ReadsFirst;
      var s, a := run[k - 1], acts[k - 1];
      StepStarts(d, s, a);
      if i < |s.procs| {
        KeepsRecord(d, s, a, i, r);
        if IsRecordOf(s, i, r) {
          EditorsWorkOn(d, run, acts, k - 1, i, r);
          StepWorksOn(d, s, a, i, r, Chosen(acts, k - 1, i),
                      Edited(run, acts, k - 1, i), Shown(run, acts, k - 1, i, r));
        } else {
          AtRest(run[k].procs[i].pc, Chosen(acts, k, i), Edited(run, acts, k, i), Shown(run, acts, k, i, r));
        }
      } else {
        AtRest(run[k].procs[i].pc, Chosen(acts, k, i), Edited(run, acts, k, i), Shown(run, acts, k, i, r));
      }
    }
  }

  lemma AtRest(pc: PC, chosen: Option<nat>, edited: Option<Record>, shown: Option<Record>)
    requires pc.Menu? || pc.Dead?
    ensures WorksOn(pc, chosen, edited, shown)
  {
  }

  /** A process changes its record only by going to rest. */
  lemma KeepsRecord(d: Discipline, s: State, a: Action, i: nat, r: nat)
    requires Enabled(s, a) && i < |s.procs| && IsRecordOf(Apply(d, s, a), i, r)
    ensures IsRecordOf(s, i, r) || Apply(d, s, a).procs[i].pc.Menu? || Apply(d, s, a).procs[i].pc.Dead?
  {
    hide AfterClose, Unlocked, Release;
  }

  /** Every commit is to the record its process was last told to modify, starts from what the process last showed of
      that record, and writes what the user last made of it. */
  lemma CommitsAreWhatWasAsked(d: Discipline, run: seq<State>, acts: seq<Action>, k: nat)
    requires IsRun(d, run, acts) && k < |acts| && run[k + 1].log != run[k].log
    ensures |run[k + 1].log| == |run[k].log| + 1 && run[k + 1].log[..|run[k].log|] == run[k].log
    ensures var c := run[k + 1].log[|run[k].log|];
            && acts[k].Step? && c.proc == acts[k].i
            && Chosen(acts, k, c.proc) == Some(c.r) && Edited(run, acts, k, c.proc) == Some(c.written)
            && Shown(run, acts, k, c.proc, c.r) == Some(c.base)
  {
    hide Value, AfterClose, Unlocked, Release, Edited, Shown, Chosen;
    var s, a := run[k], acts[k];
    assert a.Step? && s.procs[a.i].pc.Put?;
    EditorsWorkOn(d, run, acts, k, a.i, s.procs[a.i].pc.r);
  }

  lemma {:induction false} ChosenStays(acts: seq<Action>, k: nat, j: nat, i: nat)
    requires k <= j <= |acts| && forall n :: k <= n < j ==> !(acts[n].Choose? && acts[n].i == i)
    ensures Chosen(acts, j, i) == Chosen(acts, k, i)
    decreases j
  {
    if k < j { ChosenStays(acts, k, j - 1, i); }
  }

  lemma Reads(s: State, a: Action, i: nat, r: nat)
    requires Enabled(s, a) && IsRetry(s, a, i, r)
    ensures IsRecordOf(s, i, r) && !s.procs[i].pc.Menu? && !s.procs[i].pc.Dead?
  {
  }

  /** A retry does not end the modification, and until the process is told to modify another record it stays with the
      same one: whatever it reads, locks or writes then is record `r`. */
  lemma RetryStaysOnRecord(d: Discipline, run: seq<State>, acts: seq<Action>, k: nat, j: nat, i: nat, r: nat)
    requires IsRun(d, run, acts) && k < |acts| && IsRetry(run[k], acts[k], i, r) && k < j < |run|
    requires forall n :: k <= n < j ==> !(acts[n].Choose? && acts[n].i == i)
    ensures i < |run[k + 1].procs| && !run[k + 1].procs[i].pc.Menu? && !run[k + 1].procs[i].pc.Dead?
    ensures i < |run[j].procs| && !run[j].procs[i].pc.Menu? && !run[j].procs[i].pc.Dead? ==> run[j].procs[i].pc.r == r
  {
    hide AfterClose, Unlocked, Release, Edited, Shown;
    Reads(run[k], acts[k], i, r);
    EditorsWorkOn(d, run, acts, k, i, r);
    ChosenStays(acts, k, j, i);
    if i < |run[j].procs| && !run[j].procs[i].pc.Menu? && !run[j].procs[i].pc.Dead? {
      EditorsWorkOn(d, run, acts, j, i, run[j].procs[i].pc.r);
    }
  }

  // ----- descriptors and ends

  predicate Died(acts: seq<Action>, k: nat, i: nat)
    requires k <= |acts|
  {
    k > 0 && (acts[k - 1] == Die(i) || Died(acts, k - 1, i))
  }

  /** Modifications that process `i` has begun, and so opened the file for. */
  function Opened(acts: seq<Action>, k: nat, i: nat): nat
    requires k <= |acts|
  {
    if k == 0 then 0 else Opened(acts, k - 1, i) + (if acts[k - 1].Choose? && acts[k - 1].i == i then 1 else 0)
  }

  /** Process `i` closes the descriptor it opened for a modification. */
  predicate Closes(s: State, a: Action, i: nat) { a.Step? && a.i == i && i < |s.procs| && s.procs[i].pc.CloseFile? }

  function Closed(run: seq<State>, acts: seq<Action>, k: nat, i: nat): nat
    requires k <= |acts| <= |run|
  {
    if k == 0 then 0 else Closed(run, acts, k - 1, i) + (if Closes(run[k - 1], acts[k - 1], i) then 1 else 0)
  }

  /** The descriptor is open while a modification is under way. */
  function InHand(pc: PC): nat { if pc.Menu? then 0 else 1 }

  lemma NothingInHand()
    ensures InHand(Menu) == 0
  {
  }

  lemma StepEnds(d: Discipline, s: State, a: Action, i: nat)
    requires Enabled(s, a) && i < |s.procs|
    ensures i < |Apply(d, s, a).procs|
    ensures Apply(d, s, a).procs[i].pc.Dead? <==> a == Die(i) || s.procs[i].pc.Dead?
    ensures !Apply(d, s, a).procs[i].pc.Dead? ==>
              InHand(s.procs[i].pc) + (if a.Choose? && a.i == i then 1 else 0)
                == InHand(Apply(d, s, a).procs[i].pc) + (if Closes(s, a, i) then 1 else 0)
  {
    hide AfterClose, Unlocked, Release;
  }

  lemma {:induction false} NothingBefore(d: Discipline, run: seq<State>, acts: seq<Action>, k: nat, i: nat)
    requires IsRun(d, run, acts) && k < |run| && i >= |run[k].procs|
    ensures !Died(acts, k, i) && Opened(acts, k, i) == 0 && Closed(run, acts, k, i) == 0
  {
    if k > 0 {
      StepStarts(d, run[k - 1], acts[k - 1]);
      NothingBefore(d, run, acts, k - 1, i);
      NotOf(run[k - 1], acts[k - 1], i);
    }
    hide Apply, Enabled;
  }

  lemma NotOf(s: State, a: Action, i: nat)
    requires Enabled(s, a) && i >= |s.procs|
    ensures a != Die(i) && !(a.Choose? && a.i == i) && !Closes(s, a, i)
  {
  }

  /** A process has ended exactly if it was ended, for good; and a live one has closed the descriptor of every
      modification but the one it is at. */
  lemma {:induction false} EndsAndDescriptors(d: Discipline, run: seq<State>, acts: seq<Action>, k: nat, i: nat)
    requires IsRun(d, run, acts) && k < |run| && i < |run[k].procs|
    ensures run[k].procs[i].pc.Dead? <==> Died(acts, k, i)
    ensures !run[k].procs[i].pc.Dead? ==> Opened(acts, k, i) == Closed(run, acts, k, i) + InHand(run[k].procs[i].pc)
  {
    hide Apply, Enabled, Closes, InHand;
    if k > 0 {
      var s, a := run[k - 1], acts[k - 1];
      StepStarts(d, s, a);
      if i < |s.procs| {
        EndsAndDescriptors(d, run, acts, k - 1, i);
        StepEnds(d, s, a, i);
      } else {
        NothingBefore(d, run, acts, k - 1, i);
        NotOf(s, a, i);
        NothingInHand();
      }
    }
  }

  // ----- locks dropped on close

  predicate Briefly(pc: PC) { pc.Reread? || pc.RereadClose? }

  /** A lock is held from taking it to the close after the second read, and no longer. */
  predicate BrieflyHeld(s: State) {
    && |s.locks| == |s.file|
    && (forall i :: 0 <= i < |s.procs| ==> InFile(s, s.procs[i].pc))
    && (forall i, r :: 0 <= i < |s.procs| && 0 <= r < |s.locks| ==>
          (s.locks[r] == HeldBy(i) <==> Briefly(s.procs[i].pc) && s.procs[i].pc.r == r))
    && (forall r :: 0 <= r < |s.locks| && s.locks[r].HeldBy? ==> s.locks[r].i < |s.procs|)
  }

  lemma MoveKeepsBrief(s: State, s': State, i: nat, p: Process)
    requires i < |s.procs| && BrieflyHeld(s) && s'.procs == s.procs[i := p] && |s'.file| == |s.file| == |s'.locks|
    requires InFile(s', p.pc)
    requires Briefly(p.pc) ==> s.locks[p.pc.r] == Free || s.locks[p.pc.r] == HeldBy(i)
    requires forall r :: 0 <= r < |s.locks| ==>
               s'.locks[r] == if Briefly(p.pc) && p.pc.r == r then HeldBy(i)
                 else if s.locks[r] == HeldBy(i) then Free else s.locks[r]
    ensures BrieflyHeld(s')
  {
  }

  lemma OwnLocksBrief(s: State, i: nat)
    requires BrieflyHeld(s) && i < |s.procs|
    ensures |s.locks| == |s.file| && InFile(s, s.procs[i].pc)
    ensures forall r :: 0 <= r < |s.locks| ==>
              (s.locks[r] == HeldBy(i) <==> Briefly(s.procs[i].pc) && s.procs[i].pc.r == r)
  {
  }

  lemma StartKeepsBrief(s: State)
    requires BrieflyHeld(s)
    ensures BrieflyHeld(Apply(DroppedOnClose, s, Start))
  {
  }

  lemma StepKeepsBrief(s: State, a: Action)
    requires BrieflyHeld(s) && Enabled(s, a)
    ensures BrieflyHeld(Apply(DroppedOnClose, s, a))
  {
    hide BrieflyHeld;
    if a.Start? {
      StartKeepsBrief(s);
    } else {
      OwnLocksBrief(s, a.i);
      MoveKeepsBrief(s, Apply(DroppedOnClose, s, a), a.i, Apply(DroppedOnClose, s, a).procs[a.i]);
    }
  }

  /** When a close drops the locks, nobody ever holds a lock while writing: the second read has already cost it. */
  lemma {:induction false} NoLockAtWrite(run: seq<State>, acts: seq<Action>, k: nat)
    requires IsRun(DroppedOnClose, run, acts) && k < |run|
    ensures BrieflyHeld(run[k])
    ensures forall i, r :: 0 <= i < |run[k].procs| && run[k].procs[i].pc.Put? && 0 <= r < |run[k].locks| ==>
              run[k].locks[r] != HeldBy(i)
  {
    if k > 0 {
      hide Apply, Enabled, Init;
      NoLockAtWrite(run, acts, k - 1);
      StepKeepsBrief(run[k - 1], acts[k - 1]);
    }
  }
}
