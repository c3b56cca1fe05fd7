/** Optimistic update of records in a shared file: read, edit, lock, read again, and write or start over. Any number
    of processes, any interleaving, and either of two rules for how long a record lock lasts. */
module RecordEditor {
  import opened Bytes
  import opened Slices

  /** Two fields of 80 bytes and one byte. */
  const RECORD_SIZE: nat := 161

  type Record = r: seq<Byte> | |r| == RECORD_SIZE witness seq(RECORD_SIZE, _ => 0)

  // ----- the file

  /** The bytes of record `i`. */
  function RecordAt(bytes: seq<Byte>, i: nat): Record
    requires i < |bytes| / RECORD_SIZE
  {
    bytes[i * RECORD_SIZE..(i + 1) * RECORD_SIZE]
  }

  /** The records of a file; a tail shorter than a record is no record. */
  function Records(bytes: seq<Byte>): (records: seq<Record>)
    ensures |records| == |bytes| / RECORD_SIZE
    ensures forall i :: 0 <= i < |records| ==> records[i] == RecordAt(bytes, i)
  {
    seq(|bytes| / RECORD_SIZE, i requires 0 <= i < |bytes| / RECORD_SIZE => RecordAt(bytes, i))
  }

  function Joined(records: seq<Record>): seq<Byte> {
    if records == [] then [] else Joined(records[..|records| - 1]) + records[|records| - 1]
  }

  /** The records joined in order are the file, up to a tail shorter than a record. */
  lemma RecordsJoin(bytes: seq<Byte>)
    ensures |Records(bytes)| * RECORD_SIZE <= |bytes| < (|Records(bytes)| + 1) * RECORD_SIZE
    ensures Joined(Records(bytes)) == bytes[..|Records(bytes)| * RECORD_SIZE]
  {
    PrefixJoins(bytes, |Records(bytes)|);
    assert Records(bytes)[..|Records(bytes)|] == Records(bytes);
  }

  lemma {:induction false} PrefixJoins(bytes: seq<Byte>, n: nat)
    requires n <= |Records(bytes)|
    ensures Joined(Records(bytes)[..n]) == bytes[..n * RECORD_SIZE]
  {
    if n > 0 {
      PrefixJoins(bytes, n - 1);
      var first := Records(bytes)[..n];
      assert first[..n - 1] == Records(bytes)[..n - 1];
      assert first[n - 1] == RecordAt(bytes, n - 1);
      var lo, hi := (n - 1) * RECORD_SIZE, n * RECORD_SIZE;
      assert bytes[..hi] == bytes[..lo] + bytes[lo..hi];
    }
  }

  /** The file as a sequence of bytes. */
  class DataFile {
    var bytes: seq<Byte>

    method GetRecordCount() returns (count: nat)
      ensures count == |Records(bytes)|
    {
      count := |bytes| / RECORD_SIZE;
    }

    method GetRecord(recNo: int) returns (rec: Record)
      requires 1 <= recNo <= |Records(bytes)|
      ensures rec == Records(bytes)[recNo - 1]
    {
      var offset := (recNo - 1) * RECORD_SIZE;
      rec := bytes[offset..offset + RECORD_SIZE];
    }

    /** Writing a record replaces that record, leaves every other one alone and keeps the length of the file. */
    method PutRecord(recNo: int, rec: Record)
      requires 1 <= recNo <= |Records(bytes)|
      modifies this
      ensures |bytes| == |old(bytes)|
      ensures Records(bytes) == Records(old(bytes))[recNo - 1 := rec]
      ensures bytes[|Records(bytes)| * RECORD_SIZE..] == old(bytes)[|Records(bytes)| * RECORD_SIZE..]
    {
      ghost var was := bytes;
      var offset := (recNo - 1) * RECORD_SIZE;
      bytes := bytes[..offset] + rec + bytes[offset + RECORD_SIZE..];
      assert bytes == Overwrite(was, offset, rec);
      hide Overwrite;
      forall i: nat | i < |bytes| / RECORD_SIZE
        ensures RecordAt(bytes, i) == if i == recNo - 1 then rec else RecordAt(was, i)
      {
        OverwriteInside(was, offset, rec);
        if i != recNo - 1 { OverwriteOutside(was, offset, rec, i * RECORD_SIZE, (i + 1) * RECORD_SIZE); }
      }
      OverwriteOutside(was, offset, rec, |Records(bytes)| * RECORD_SIZE, |bytes|);
    }
  }

  // ----- the processes

  /** How long a record lock lasts. HeldUntilUnlock: as the program means it. DroppedOnClose: closing any descriptor
      of the file drops the process's locks on it (fcntl() in the System Interfaces volume of POSIX.1-2017), and
      reading or writing a record closes one. */
  datatype Discipline = HeldUntilUnlock | DroppedOnClose

  datatype Lock = Free | HeldBy(i: nat)

  /** Where a process is in modify_and_save_record: `r` is the index of the record, `rec` the value first read,
      `wrk` the edited value, `again` the value read again under the lock. */
  datatype PC =
    | Menu
    | FirstRead(r: nat)
    | FirstClose(r: nat, rec: Record)
    | Editing(r: nat, rec: Record)
    | LockWait(r: nat, rec: Record, wrk: Record)
    | Reread(r: nat, rec: Record, wrk: Record)
    | RereadClose(r: nat, rec: Record, wrk: Record, again: Record)
    | Compare(r: nat, rec: Record, wrk: Record, again: Record)
    | UnlockRetry(r: nat, rec: Record)
    | Put(r: nat, rec: Record, wrk: Record)
    | PutClose(r: nat)
    | UnlockDone(r: nat)
    | CloseFile(r: nat)
    | Dead

  /** A process with two history variables: how many commits there were at its first read and at its second. */
  datatype Process = Process(pc: PC, first: nat, second: nat)

  /** Process `proc`, having first read `base`, wrote `written` to record `r`; `second` is how many commits there
      were at its second read. */
  datatype Commit = Commit(proc: nat, r: nat, base: Record, written: Record, second: nat)

  datatype State = State(file: seq<Record>, locks: seq<Lock>, procs: seq<Process>, log: seq<Commit>)

  datatype Action =
    | Start                        // another process opens the menu
    | Choose(i: nat, r: nat)       // process i is told to modify record r
    | Step(i: nat, wrk: Record)    // process i takes its next step; wrk is what the user makes of the record
    | Die(i: nat)                  // process i ends: an error exit, or a signal

  ghost predicate Init(s: State) {
    s == State(s.file, seq(|s.file|, _ => Free), [], [])
  }

  function Release(locks: seq<Lock>, i: nat): (locks': seq<Lock>)
    ensures |locks'| == |locks|
  {
    seq(|locks|, j requires 0 <= j < |locks| => if locks[j] == HeldBy(i) then Free else locks[j])
  }

  /** The locks after process `i` has closed a descriptor of the file. */
  function AfterClose(d: Discipline, locks: seq<Lock>, i: nat): (locks': seq<Lock>)
    ensures |locks'| == |locks|
  {
    if d.DroppedOnClose? then Release(locks, i) else locks
  }

  function Unlocked(locks: seq<Lock>, r: nat, i: nat): (locks': seq<Lock>)
    requires r < |locks|
    ensures |locks'| == |locks|
  {
    if locks[r] == HeldBy(i) then locks[r := Free] else locks
  }

  /** The record index of a process that is busy is a record of the file. */
  predicate InFile(s: State, pc: PC) {
    |s.locks| == |s.file| && (pc.Menu? || pc.Dead? || pc.r < |s.file|)
  }

  predicate StepEnabled(s: State, i: nat)
    requires i < |s.procs|
  {
    var pc := s.procs[i].pc;
    && InFile(s, pc) && !pc.Menu? && !pc.Dead?
    && (pc.LockWait? ==> s.locks[pc.r] == Free || s.locks[pc.r] == HeldBy(i))
  }

  function MoveTo(s: State, i: nat, pc: PC): State
    requires i < |s.procs|
  {
    s.(procs := s.procs[i := s.procs[i].(pc := pc)])
  }

  function ProcessStep(d: Discipline, s: State, i: nat, edit: Record): State
    requires i < |s.procs| && StepEnabled(s, i)
  {
    match s.procs[i].pc
    case FirstRead(r) => s.(procs := s.procs[i := s.procs[i].(pc := FirstClose(r, s.file[r]), first := |s.log|)])
    case FirstClose(r, rec) => MoveTo(s.(locks := AfterClose(d, s.locks, i)), i, Editing(r, rec))
    case Editing(r, rec) => MoveTo(s, i, if edit != rec then LockWait(r, rec, edit) else CloseFile(r))
    case LockWait(r, rec, wrk) => MoveTo(s.(locks := s.locks[r := HeldBy(i)]), i, Reread(r, rec, wrk))
    case Reread(r, rec, wrk) =>
      s.(procs := s.procs[i := s.procs[i].(pc := RereadClose(r, rec, wrk, s.file[r]), second := |s.log|)])
    case RereadClose(r, rec, wrk, again) =>
      MoveTo(s.(locks := AfterClose(d, s.locks, i)), i, Compare(r, rec, wrk, again))
    case Compare(r, rec, wrk, again) => MoveTo(s, i, if again != rec then UnlockRetry(r, rec) else Put(r, rec, wrk))
    case UnlockRetry(r, _) => MoveTo(s.(locks := Unlocked(s.locks, r, i)), i, FirstRead(r))
    case Put(r, rec, wrk) =>
      MoveTo(s.(file := s.file[r := wrk], log := s.log + [Commit(i, r, rec, wrk, s.procs[i].second)]), i, PutClose(r))
    case PutClose(r) => MoveTo(s.(locks := AfterClose(d, s.locks, i)), i, UnlockDone(r))
    case UnlockDone(r) => MoveTo(s.(locks := Unlocked(s.locks, r, i)), i, CloseFile(r))
    case CloseFile(_) => MoveTo(s.(locks := AfterClose(d, s.locks, i)), i, Menu)
    case _ => s
  }

  predicate Enabled(s: State, a: Action) {
    match a
    case Start => true
    case Choose(i, r) => i < |s.procs| && s.procs[i].pc.Menu? && r < |s.file|
    case Step(i, _) => i < |s.procs| && StepEnabled(s, i)
    case Die(i) => i < |s.procs| && !s.procs[i].pc.Dead?
  }

  function Apply(d: Discipline, s: State, a: Action): State
    requires Enabled(s, a)
  {
    match a
    case Start => s.(procs := s.procs + [Process(Menu, 0, 0)])
    case Choose(i, r) => MoveTo(s, i, FirstRead(r))
    case Step(i, edit) => ProcessStep(d, s, i, edit)
    case Die(i) => MoveTo(s.(locks := Release(s.locks, i)), i, Dead)
  }

  ghost predicate Steps(d: Discipline, run: seq<State>, acts: seq<Action>) {
    && |run| == |acts| + 1
    && forall k :: 0 <= k < |acts| ==> Enabled(run[k], acts[k]) && run[k + 1] == Apply(d, run[k], acts[k])
  }

  ghost predicate IsRun(d: Discipline, run: seq<State>, acts: seq<Action>) { Steps(d, run, acts) && Init(run[0]) }

  // ----- chains of commits

  /** The value of record `r` after the first `n` commits, `initial` being its value before them. */
  function Value(log: seq<Commit>, n: nat, r: nat, initial: Record): Record
    requires n <= |log|
  {
    if n == 0 then initial else if log[n - 1].r == r then log[n - 1].written else Value(log, n - 1, r, initial)
  }

  /** Every commit to record `r` started from the value the commit before it left. */
  ghost predicate Chained(log: seq<Commit>, r: nat, initial: Record) {
    forall n :: 0 <= n < |log| && log[n].r == r ==> log[n].base == Value(log, n, r, initial)
  }

  lemma {:induction false} ValueAppend(log: seq<Commit>, c: Commit, n: nat, r: nat, initial: Record)
    requires n <= |log|
    ensures Value(log + [c], n, r, initial) == Value(log, n, r, initial)
  {
    if n > 0 { ValueAppend(log, c, n - 1, r, initial); }
  }

  lemma ChainedAppend(log: seq<Commit>, c: Commit, r: nat, initial: Record)
    requires Chained(log, r, initial) && (c.r == r ==> c.base == Value(log, |log|, r, initial))
    ensures Chained(log + [c], r, initial)
  {
    var log' := log + [c];
    forall n | 0 <= n < |log'| && log'[n].r == r ensures log'[n].base == Value(log', n, r, initial) {
      ValueAppend(log, c, n, r, initial);
      if n < |log| { assert log'[n] == log[n]; }
    }
  }

  // ----- what holds under either discipline

  /** No commit from the `a`-th to before the `b`-th is to record `r`. */
  ghost predicate Untouched(log: seq<Commit>, a: nat, b: nat, r: nat)
    requires b <= |log|
  {
    forall k :: a <= k < b ==> log[k].r != r
  }

  predicate HasRead(pc: PC) {
    pc.FirstClose? || pc.Editing? || pc.LockWait? || pc.Reread? || pc.RereadClose? || pc.Compare?
    || pc.UnlockRetry? || pc.Put?
  }

  /** What process `i` knows: it has not committed since its first read, and the value it read first is still the
      record's unless somebody committed to the record since. */
  ghost predicate Tracks(s: State, i: nat)
    requires i < |s.procs|
  {
    var p, pc := s.procs[i], s.procs[i].pc;
    && InFile(s, pc)
    && (HasRead(pc) ==>
          p.first <= |s.log|
          && (forall k :: p.first <= k < |s.log| ==> s.log[k].proc != i)
          && (Untouched(s.log, p.first, |s.log|, pc.r) ==> s.file[pc.r] == pc.rec))
    && (pc.RereadClose? || pc.Compare? ==>
          p.first <= p.second <= |s.log| && (Untouched(s.log, p.first, p.second, pc.r) ==> pc.again == pc.rec))
    && (pc.UnlockRetry? ==> p.second <= |s.log| && !Untouched(s.log, p.first, p.second, pc.r))
    && (pc.LockWait? || pc.Reread? || pc.RereadClose? || pc.Compare? || pc.Put? ==> pc.wrk != pc.rec)
  }

  ghost predicate LogInv(initial: seq<Record>, s: State) {
    && |s.file| == |initial| == |s.locks|
    && (forall r :: 0 <= r < |s.file| ==> s.file[r] == Value(s.log, |s.log|, r, initial[r]))
    && (forall c :: c in s.log ==> c.written != c.base)
  }

  ghost predicate Inv(initial: seq<Record>, s: State) {
    LogInv(initial, s) && forall i :: 0 <= i < |s.procs| ==> Tracks(s, i)
  }

  lemma StepKeepsLog(d: Discipline, initial: seq<Record>, s: State, a: Action)
    requires Inv(initial, s) && Enabled(s, a)
    ensures LogInv(initial, Apply(d, s, a))
  {
    var s' := Apply(d, s, a);
    if a.Step? && s.procs[a.i].pc.Put? {
      var c := s'.log[|s.log|];
      assert Tracks(s, a.i);
      forall r | 0 <= r < |s.file| ensures s'.file[r] == Value(s'.log, |s'.log|, r, initial[r]) {
        ValueAppend(s.log, c, |s.log|, r, initial[r]);
      }
    }
  }

  lemma StepKeepsOwnTrack(d: Discipline, s: State, i: nat, edit: Record)
    requires i < |s.procs| && StepEnabled(s, i) && Tracks(s, i)
    ensures Tracks(ProcessStep(d, s, i, edit), i)
  {
    hide AfterClose, Unlocked, Value;
    var p := s.procs[i];
    assert p.pc.Reread? && Untouched(s.log, p.first, |s.log|, p.pc.r) ==> s.file[p.pc.r] == p.pc.rec;
  }

  lemma StepKeepsOtherTrack(d: Discipline, s: State, i: nat, edit: Record, j: nat)
    requires i < |s.procs| && j < |s.procs| && i != j && StepEnabled(s, i) && Tracks(s, j)
    ensures Tracks(ProcessStep(d, s, i, edit), j)
  {
    hide AfterClose, Unlocked, Value;
    var s' := ProcessStep(d, s, i, edit);
    assert s'.procs[j] == s.procs[j];
    if s.procs[i].pc.Put? {
      PutKeepsTrack(s, s', i, s'.log[|s.log|], j);
    }
  }

  lemma PutKeepsTrack(s: State, s': State, i: nat, c: Commit, j: nat)
    requires i < |s.procs| && j < |s.procs| && i != j && Tracks(s, j) && c.r < |s.file| && c.proc == i
    requires |s'.procs| == |s.procs| && s'.procs[j] == s.procs[j] && s'.locks == s.locks
    requires s'.file == s.file[c.r := c.written] && s'.log == s.log + [c]
    ensures Tracks(s', j)
  {
    var p := s.procs[j];
    if HasRead(p.pc) {
      assert s'.log[|s.log|] == c;
      if Untouched(s'.log, p.first, |s'.log|, p.pc.r) {
        assert c.r != p.pc.r;
        assert forall k :: p.first <= k < |s.log| ==> s'.log[k] == s.log[k];
        assert Untouched(s.log, p.first, |s.log|, p.pc.r);
      }
      if p.pc.RereadClose? || p.pc.Compare? || p.pc.UnlockRetry? {
        assert forall k :: p.first <= k < p.second ==> s'.log[k] == s.log[k];
        assert Untouched(s.log, p.first, p.second, p.pc.r) == Untouched(s'.log, p.first, p.second, p.pc.r);
      }
    }
  }

  lemma StepKeepsInv(d: Discipline, initial: seq<Record>, s: State, a: Action)
    requires Inv(initial, s) && Enabled(s, a)
    ensures Inv(initial, Apply(d, s, a))
  {
    var s' := Apply(d, s, a);
    StepKeepsLog(d, initial, s, a);
    forall j: nat | j < |s'.procs| ensures Tracks(s', j) {
      if a.Step? {
        assert |s'.procs| == |s.procs|;
        assert Tracks(s, j);
        if j == a.i { StepKeepsOwnTrack(d, s, j, a.wrk); } else { StepKeepsOtherTrack(d, s, a.i, a.wrk, j); }
      } else if j < |s.procs| {
        assert Tracks(s, j);
      }
    }
  }

  lemma {:induction false} Reachable(d: Discipline, run: seq<State>, acts: seq<Action>, k: nat)
    requires IsRun(d, run, acts) && k < |run|
    ensures Inv(run[0].file, run[k])
  {
    if k > 0 {
      hide Inv, Apply, Enabled, Init;
      Reachable(d, run, acts, k - 1);
      StepKeepsInv(d, run[0].file, run[k - 1], acts[k - 1]);
    }
  }

  /** The file is what the commits made of it, and no commit writes the value it started from. */
  lemma FileIsLog(d: Discipline, run: seq<State>, acts: seq<Action>, k: nat)
    requires IsRun(d, run, acts) && k < |run|
    ensures var s := run[k];
            && |s.file| == |run[0].file|
            && (forall r :: 0 <= r < |s.file| ==> s.file[r] == Value(s.log, |s.log|, r, run[0].file[r]))
            && (forall c :: c in s.log ==> c.written != c.base)
  {
    Reachable(d, run, acts, k);
  }

  /** A step changes at most the record its process is editing, and exactly when it commits. */
  lemma Frame(d: Discipline, s: State, i: nat, edit: Record)
    requires i < |s.procs| && StepEnabled(s, i)
    ensures var s', pc := ProcessStep(d, s, i, edit), s.procs[i].pc;
            && |s'.file| == |s.file|
            && (forall r :: 0 <= r < |s.file| && r != pc.r ==> s'.file[r] == s.file[r])
            && (s'.file != s.file ==> pc.Put? && s'.log == s.log + [Commit(i, pc.r, pc.rec, pc.wrk, s.procs[i].second)])
            && (s'.log != s.log ==> pc.Put? && s'.file[pc.r] == pc.wrk)
            && (forall j :: 0 <= j < |s.procs| && j != i ==> s'.procs[j] == s.procs[j])
            && (forall r, j :: 0 <= r < |s.locks| && j != i ==> (s'.locks[r] == HeldBy(j) <==> s.locks[r] == HeldBy(j)))
  {
  }

  // ----- retries

  /** The step in which process `p` gives up on its copy of record `r` and starts over. */
  predicate IsRetry(s: State, a: Action, p: nat, r: nat) {
    a.Step? && a.i == p && p < |s.procs| && s.procs[p].pc.UnlockRetry? && s.procs[p].pc.r == r
  }

  function Retries(run: seq<State>, acts: seq<Action>, k: nat, p: nat, r: nat): nat
    requires k <= |acts| <= |run|
  {
    if k == 0 then 0 else Retries(run, acts, k - 1, p, r) + (if IsRetry(run[k - 1], acts[k - 1], p, r) then 1 else 0)
  }

  /** Commits of other processes to record `r` among the first `n`. */
  function Others(log: seq<Commit>, n: nat, p: nat, r: nat): nat
    requires n <= |log|
  {
    if n == 0 then 0 else Others(log, n - 1, p, r) + (if log[n - 1].proc != p && log[n - 1].r == r then 1 else 0)
  }

  lemma {:induction false} OthersAppend(log: seq<Commit>, c: Commit, n: nat, p: nat, r: nat)
    requires n <= |log|
    ensures Others(log + [c], n, p, r) == Others(log, n, p, r)
  {
    if n > 0 { OthersAppend(log, c, n - 1, p, r); }
  }

  /** A commit of another process between two points makes the count grow. */
  lemma {:induction false} OthersGrow(log: seq<Commit>, a: nat, b: nat, p: nat, r: nat)
    requires a <= b <= |log|
    ensures Others(log, a, p, r) <= Others(log, b, p, r)
    ensures (exists k :: a <= k < b && log[k].proc != p && log[k].r == r)
            ==> Others(log, a, p, r) < Others(log, b, p, r)
    decreases b
  {
    if a < b {
      OthersGrow(log, a, b - 1, p, r);
      if k :| a <= k < b && log[k].proc != p && log[k].r == r {
        assert k == b - 1 || (k < b - 1 && log[k].proc != p && log[k].r == r);
      }
    }
  }

  /** Every retry is paid for: between the two reads some other process committed to the record. */
  lemma RetryIsPaidFor(d: Discipline, run: seq<State>, acts: seq<Action>, k: nat, p: nat, r: nat)
    requires IsRun(d, run, acts) && k < |acts| && IsRetry(run[k], acts[k], p, r)
    ensures var s := run[k];
            s.procs[p].second <= |s.log|
            && exists n :: s.procs[p].first <= n < s.procs[p].second && s.log[n].proc != p && s.log[n].r == r
  {
    Reachable(d, run, acts, k);
    var s := run[k];
    assert Tracks(s, p);
    var n :| s.procs[p].first <= n < s.procs[p].second && s.log[n].r == r;
    assert s.log[n].proc != p;
  }

  /** Retries so far are covered by what others had committed when the process last read the record. */
  ghost predicate Covered(run: seq<State>, acts: seq<Action>, k: nat, p: nat, r: nat)
    requires k <= |acts| < |run|
  {
    var s := run[k];
    && Retries(run, acts, k, p, r) <= Others(s.log, |s.log|, p, r)
    && (p < |s.procs| && HasRead(s.procs[p].pc) && s.procs[p].pc.r == r ==>
          s.procs[p].first <= |s.log| && Retries(run, acts, k, p, r) <= Others(s.log, s.procs[p].first, p, r))
  }

  lemma {:induction false} AlwaysCovered(d: Discipline, run: seq<State>, acts: seq<Action>, k: nat, p: nat, r: nat)
    requires IsRun(d, run, acts) && k < |run|
    ensures Covered(run, acts, k, p, r)
  {
    if k > 0 {
      AlwaysCovered(d, run, acts, k - 1, p, r);
      Reachable(d, run, acts, k - 1);
      StepKeepsCovered(d, run, acts, k - 1, p, r);
    }
  }

  lemma StepKeepsCovered(d: Discipline, run: seq<State>, acts: seq<Action>, k: nat, p: nat, r: nat)
    requires IsRun(d, run, acts) && k < |acts| && Covered(run, acts, k, p, r)
    ensures Covered(run, acts, k + 1, p, r)
  {
    var s, a, s' := run[k], acts[k], run[k + 1];
    LogGrows(d, s, a, p);
    if s'.log != s.log {
      var c := s'.log[|s.log|];
      OthersAppend(s.log, c, |s.log|, p, r);
      if p < |s.procs| && s.procs[p].first <= |s.log| { OthersAppend(s.log, c, s.procs[p].first, p, r); }
    }
    if IsRetry(s, a, p, r) {
      RetryIsPaidFor(d, run, acts, k, p, r);
      OthersGrow(s.log, s.procs[p].first, s.procs[p].second, p, r);
      OthersGrow(s.log, s.procs[p].second, |s.log|, p, r);
      assert s' == ProcessStep(d, s, p, a.wrk);
    }
  }

  /** The log only grows, by at most one commit, and a process keeps its first read until it reads again. */
  lemma LogGrows(d: Discipline, s: State, a: Action, p: nat)
    requires Enabled(s, a)
    ensures var s' := Apply(d, s, a);
            && (s'.log == s.log || (|s'.log| == |s.log| + 1 && s'.log == s.log + [s'.log[|s.log|]]))
            && (p < |s'.procs| && HasRead(s'.procs[p].pc) ==>
                  p < |s.procs|
                  && (s'.procs[p].first == |s'.log| == |s.log|
                      || (HasRead(s.procs[p].pc) && s'.procs[p].first == s.procs[p].first
                          && s'.procs[p].pc.r == s.procs[p].pc.r)))
  {
  }

  /** A process's retries on a record never exceed the commits of the others to it. */
  lemma RetriesBounded(d: Discipline, run: seq<State>, acts: seq<Action>, k: nat, p: nat, r: nat)
    requires IsRun(d, run, acts) && k < |run|
    ensures Retries(run, acts, k, p, r) <= Others(run[k].log, |run[k].log|, p, r)
  {
    AlwaysCovered(d, run, acts, k, p, r);
  }

  // ----- what a commit replaces

  /** Between its second read and its write a process has in hand what the record was at the second read. */
  ghost predicate Saw(initial: seq<Record>, s: State, p: Process) {
    p.pc.RereadClose? || p.pc.Compare? || p.pc.Put? ==>
      (p.pc.r < |initial| && p.second <= |s.log|
       && (if p.pc.Put? then p.pc.rec else p.pc.again) == Value(s.log, p.second, p.pc.r, initial[p.pc.r]))
  }

  /** Commit number `n` started from what its second read returned. */
  ghost predicate FromSecondRead(initial: seq<Record>, log: seq<Commit>, n: nat)
    requires n < |log|
  {
    && log[n].r < |initial| && log[n].second <= n
    && log[n].base == Value(log, log[n].second, log[n].r, initial[log[n].r])
  }

  ghost predicate SecondInv(initial: seq<Record>, s: State) {
    && (forall i :: 0 <= i < |s.procs| ==> Saw(initial, s, s.procs[i]))
    && (forall n :: 0 <= n < |s.log| ==> FromSecondRead(initial, s.log, n))
  }

  lemma LogKeepsSecond(initial: seq<Record>, log: seq<Commit>, c: Commit)
    requires forall n :: 0 <= n < |log| ==> FromSecondRead(initial, log, n)
    requires c.r < |initial| && c.second <= |log| && c.base == Value(log, c.second, c.r, initial[c.r])
    ensures forall n :: 0 <= n < |log + [c]| ==> FromSecondRead(initial, log + [c], n)
  {
    forall n | 0 <= n < |log + [c]| ensures FromSecondRead(initial, log + [c], n) {
      var d := (log + [c])[n];
      if n < |log| { assert d == log[n] && FromSecondRead(initial, log, n); }
      ValueAppend(log, c, d.second, d.r, initial[d.r]);
    }
  }

  /** A commit of somebody else does not change what a process saw. */
  lemma CommitKeepsSaw(initial: seq<Record>, s: State, s': State, p: Process)
    requires Saw(initial, s, p) && (s'.log == s.log || (s'.log != [] && s'.log[..|s'.log| - 1] == s.log))
    ensures Saw(initial, s', p)
  {
    if s'.log != s.log && (p.pc.RereadClose? || p.pc.Compare? || p.pc.Put?) {
      var c := s'.log[|s.log|];
      assert s'.log == s.log + [c];
      ValueAppend(s.log, c, p.second, p.pc.r, initial[p.pc.r]);
    }
  }

  lemma OwnStepKeepsSaw(d: Discipline, initial: seq<Record>, s: State, i: nat, edit: Record)
    requires LogInv(initial, s) && i < |s.procs| && StepEnabled(s, i) && Saw(initial, s, s.procs[i])
    ensures Saw(initial, ProcessStep(d, s, i, edit), ProcessStep(d, s, i, edit).procs[i])
  {
    hide AfterClose, Unlocked, Value;
  }

  lemma StepKeepsSaw(d: Discipline, initial: seq<Record>, s: State, a: Action, i: nat)
    requires LogInv(initial, s) && SecondInv(initial, s) && Enabled(s, a) && i < |Apply(d, s, a).procs|
    ensures Saw(initial, Apply(d, s, a), Apply(d, s, a).procs[i])
  {
    hide AfterClose, Unlocked, Release, FromSecondRead, Value, LogInv;
    var s' := Apply(d, s, a);
    if i < |s.procs| {
      assert Saw(initial, s, s.procs[i]);
      if a.Step? && a.i == i {
        OwnStepKeepsSaw(d, initial, s, i, a.wrk);
      } else {
        CommitKeepsSaw(initial, s, s', s.procs[i]);
      }
    }
  }

  lemma StepKeepsSecond(d: Discipline, initial: seq<Record>, s: State, a: Action)
    requires LogInv(initial, s) && SecondInv(initial, s) && Enabled(s, a)
    ensures SecondInv(initial, Apply(d, s, a))
  {
    var s' := Apply(d, s, a);
    forall i: nat | i < |s'.procs| ensures Saw(initial, s', s'.procs[i]) { StepKeepsSaw(d, initial, s, a, i); }
    if a.Step? && s.procs[a.i].pc.Put? {
      assert Saw(initial, s, s.procs[a.i]);
      LogKeepsSecond(initial, s.log, s'.log[|s.log|]);
    }
  }

  lemma {:induction false} SecondReachable(d: Discipline, run: seq<State>, acts: seq<Action>, k: nat)
    requires IsRun(d, run, acts) && k < |run|
    ensures SecondInv(run[0].file, run[k])
  {
    if k > 0 {
      SecondReachable(d, run, acts, k - 1);
      Reachable(d, run, acts, k - 1);
      hide SecondInv, LogInv, Apply, Enabled, Init, Tracks;
      StepKeepsSecond(d, run[0].file, run[k - 1], acts[k - 1]);
    }
  }

  lemma {:induction false} ValueUntouched(log: seq<Commit>, a: nat, b: nat, r: nat, initial: Record)
    requires a <= b <= |log| && Untouched(log, a, b, r)
    ensures Value(log, a, r, initial) == Value(log, b, r, initial)
    decreases b
  {
    if a < b { ValueUntouched(log, a, b - 1, r, initial); }
  }

  /** Under either lock rule: a commit started from what its second read returned, so it replaces exactly that as
      long as nobody committed to the record between its second read and its write. */
  lemma UndisturbedReplaces(d: Discipline, run: seq<State>, acts: seq<Action>, k: nat, n: nat)
    requires IsRun(d, run, acts) && k < |run| && n < |run[k].log|
    ensures var log, c := run[k].log, run[k].log[n];
            && c.r < |run[0].file| && c.second <= n
            && c.base == Value(log, c.second, c.r, run[0].file[c.r])
            && (Untouched(log, c.second, n, c.r) ==> c.base == Value(log, n, c.r, run[0].file[c.r]))
  {
    SecondReachable(d, run, acts, k);
    var log, c := run[k].log, run[k].log[n];
    assert FromSecondRead(run[0].file, log, n);
    if Untouched(log, c.second, n, c.r) { ValueUntouched(log, c.second, n, c.r, run[0].file[c.r]); }
  }

  /** So a run in which no commit to a record falls between another's second read and write loses no update of it. */
  lemma UndisturbedChains(d: Discipline, run: seq<State>, acts: seq<Action>, k: nat, r: nat)
    requires IsRun(d, run, acts) && k < |run| && r < |run[0].file|
    requires forall n :: 0 <= n < |run[k].log| && run[k].log[n].r == r ==>
               (run[k].log[n].second <= n && Untouched(run[k].log, run[k].log[n].second, n, r))
    ensures Chained(run[k].log, r, run[0].file[r])
  {
    forall n: nat | n < |run[k].log| && run[k].log[n].r == r
      ensures run[k].log[n].base == Value(run[k].log, n, r, run[0].file[r])
    {
      UndisturbedReplaces(d, run, acts, k, n);
    }
  }

  // ----- locks held until unlock_record

  predicate HoldsLock(pc: PC) {
    pc.Reread? || pc.RereadClose? || pc.Compare? || pc.UnlockRetry? || pc.Put? || pc.PutClose? || pc.UnlockDone?
  }

  ghost predicate LockInv(s: State) {
    && |s.locks| == |s.file|
    && (forall i :: 0 <= i < |s.procs| ==> InFile(s, s.procs[i].pc))
    && (forall i, r :: 0 <= i < |s.procs| && 0 <= r < |s.locks| ==>
          (s.locks[r] == HeldBy(i) <==> HoldsLock(s.procs[i].pc) && s.procs[i].pc.r == r))
    && (forall r :: 0 <= r < |s.locks| && s.locks[r].HeldBy? ==> s.locks[r].i < |s.procs|)
  }

  /** Between its second read and its write a process sees the record as it is. */
  ghost predicate SeesRecord(s: State, pc: PC) {
    InFile(s, pc)
    && (pc.RereadClose? || pc.Compare? ==> s.file[pc.r] == pc.again)
    && (pc.Put? ==> s.file[pc.r] == pc.rec)
  }

  ghost predicate HeldInv(initial: seq<Record>, s: State) {
    && LockInv(s)
    && (forall i :: 0 <= i < |s.procs| ==> SeesRecord(s, s.procs[i].pc))
    && |initial| == |s.file|
    && (forall r :: 0 <= r < |s.file| ==> Chained(s.log, r, initial[r]))
  }

  /** A process takes the lock of its record when it was free, and gives up what it holds elsewhere. */
  lemma MoveKeepsLocks(s: State, s': State, i: nat, p: Process)
    requires i < |s.procs| && LockInv(s) && s'.procs == s.procs[i := p] && |s'.file| == |s.file| == |s'.locks|
    requires InFile(s', p.pc)
    requires HoldsLock(p.pc) ==> s.locks[p.pc.r] == Free || s.locks[p.pc.r] == HeldBy(i)
    requires forall r :: 0 <= r < |s.locks| ==>
               s'.locks[r] == if HoldsLock(p.pc) && p.pc.r == r then HeldBy(i)
                 else if s.locks[r] == HeldBy(i) then Free else s.locks[r]
    ensures LockInv(s')
  {
    hide HoldsLock;
  }

  lemma OwnLocks(s: State, i: nat)
    requires LockInv(s) && i < |s.procs|
    ensures |s.locks| == |s.file| && InFile(s, s.procs[i].pc)
    ensures forall r :: 0 <= r < |s.locks| ==>
              (s.locks[r] == HeldBy(i) <==> HoldsLock(s.procs[i].pc) && s.procs[i].pc.r == r)
  {
  }

  lemma StartKeepsLocks(s: State)
    requires LockInv(s)
    ensures LockInv(Apply(HeldUntilUnlock, s, Start))
  {
  }

  lemma StepKeepsLocks(s: State, a: Action)
    requires LockInv(s) && Enabled(s, a)
    ensures LockInv(Apply(HeldUntilUnlock, s, a))
  {
    hide LockInv;
    if a.Start? {
      StartKeepsLocks(s);
    } else {
      var s' := Apply(HeldUntilUnlock, s, a);
      OwnLocks(s, a.i);
      MoveKeepsLocks(s, s', a.i, s'.procs[a.i]);
    }
  }

  lemma StepKeepsSight(s: State, a: Action)
    requires LockInv(s) && (forall i :: 0 <= i < |s.procs| ==> SeesRecord(s, s.procs[i].pc)) && Enabled(s, a)
    ensures var s' := Apply(HeldUntilUnlock, s, a); forall i :: 0 <= i < |s'.procs| ==> SeesRecord(s', s'.procs[i].pc)
  {
    var s' := Apply(HeldUntilUnlock, s, a);
    forall i | 0 <= i < |s'.procs| ensures SeesRecord(s', s'.procs[i].pc) {
      if i < |s.procs| {
        assert SeesRecord(s, s.procs[i].pc);
        if a.Step? && i != a.i && HoldsLock(s.procs[i].pc) {
          assert s.locks[s.procs[i].pc.r] == HeldBy(i);
        }
      }
    }
  }

  lemma StepKeepsChain(initial: seq<Record>, s: State, a: Action)
    requires Inv(initial, s) && HeldInv(initial, s) && Enabled(s, a)
    ensures var s' := Apply(HeldUntilUnlock, s, a); forall r :: 0 <= r < |s.file| ==> Chained(s'.log, r, initial[r])
  {
    var s' := Apply(HeldUntilUnlock, s, a);
    if a.Step? && s.procs[a.i].pc.Put? {
      assert SeesRecord(s, s.procs[a.i].pc);
      var c := s'.log[|s.log|];
      forall r | 0 <= r < |s.file| ensures Chained(s'.log, r, initial[r]) { ChainedAppend(s.log, c, r, initial[r]); }
    }
  }

  lemma {:induction false} ReachableHeld(run: seq<State>, acts: seq<Action>, k: nat)
    requires IsRun(HeldUntilUnlock, run, acts) && k < |run|
    ensures HeldInv(run[0].file, run[k])
  {
    if k > 0 {
      ReachableHeld(run, acts, k - 1);
      Reachable(HeldUntilUnlock, run, acts, k - 1);
      Reachable(HeldUntilUnlock, run, acts, k);
      StepKeepsLocks(run[k - 1], acts[k - 1]);
      StepKeepsSight(run[k - 1], acts[k - 1]);
      StepKeepsChain(run[0].file, run[k - 1], acts[k - 1]);
    }
  }

  /** No update is lost: every commit replaces exactly the value its editor started from. */
  lemma NoLostUpdate(run: seq<State>, acts: seq<Action>, k: nat)
    requires IsRun(HeldUntilUnlock, run, acts) && k < |acts| && acts[k].Step?
    requires acts[k].i < |run[k].procs| && run[k].procs[acts[k].i].pc.Put?
    ensures var pc := run[k].procs[acts[k].i].pc; pc.r < |run[k].file| && run[k].file[pc.r] == pc.rec
  {
    ReachableHeld(run, acts, k);
    assert SeesRecord(run[k], run[k].procs[acts[k].i].pc);
  }

  /** A process that waits for a record waits for one that can move on. */
  lemma HolderCanMove(run: seq<State>, acts: seq<Action>, k: nat, i: nat)
    requires IsRun(HeldUntilUnlock, run, acts) && k < |run| && i < |run[k].procs|
    requires run[k].procs[i].pc.LockWait? && !StepEnabled(run[k], i)
    ensures exists j :: 0 <= j < |run[k].procs| && j != i && HoldsLock(run[k].procs[j].pc)
              && run[k].procs[j].pc.r == run[k].procs[i].pc.r && StepEnabled(run[k], j)
  {
    ReachableHeld(run, acts, k);
    var s := run[k];
    var r := s.procs[i].pc.r;
    var j := s.locks[r].i;
    assert s.locks[r] == HeldBy(j);
    assert HoldsLock(s.procs[j].pc) && s.procs[j].pc.r == r;
  }

  // ----- locks dropped on close

  /** Some run from `file` ends in `s`. */
  ghost predicate Reaches(d: Discipline, file: seq<Record>, s: State) {
    exists run: seq<State>, acts: seq<Action> :: IsRun(d, run, acts) && run[0].file == file && run[|run| - 1] == s
  }

  lemma Extend(d: Discipline, file: seq<Record>, s: State, a: Action)
    requires Reaches(d, file, s) && Enabled(s, a)
    ensures Reaches(d, file, Apply(d, s, a))
  {
    hide Enabled, Apply, Init;
    var run: seq<State>, acts: seq<Action> :| IsRun(d, run, acts) && run[0].file == file && run[|run| - 1] == s;
    var run', acts' := run + [Apply(d, s, a)], acts + [a];
    forall k | 0 <= k < |acts'| ensures Enabled(run'[k], acts'[k]) && run'[k + 1] == Apply(d, run'[k], acts'[k]) {
      if k < |acts| { assert run'[k] == run[k] && run'[k + 1] == run[k + 1] && acts'[k] == acts[k]; }
    }
    assert IsRun(d, run', acts') && run'[0].file == file;
  }

  function AllFree(n: nat): (locks: seq<Lock>)
    ensures |locks| == n
  {
    seq(n, _ => Free)
  }

  lemma ReleaseOnly(n: nat, r: nat, i: nat)
    requires r < n
    ensures Release(AllFree(n), i) == AllFree(n) && Release(AllFree(n)[r := HeldBy(i)], i) == AllFree(n)
  {
  }

  /** With all locks free a process gets as far as its lock. */
  lemma ToLock(file: seq<Record>, s: State, i: nat, r: nat, wrk: Record) returns (t: State)
    requires Reaches(DroppedOnClose, file, s) && s.locks == AllFree(|s.file|)
    requires i < |s.procs| && s.procs[i].pc.Menu? && r < |s.file| && wrk != s.file[r]
    ensures Reaches(DroppedOnClose, file, t)
    ensures t == s.(procs := s.procs[i := Process(LockWait(r, s.file[r], wrk), |s.log|, s.procs[i].second)])
  {
    ReleaseOnly(|s.file|, r, i);
    var d, go, rec := DroppedOnClose, Step(i, wrk), s.file[r];
    var p := s.procs[i].(first := |s.log|);
    var s1 := MoveTo(s, i, FirstRead(r));
    var s2 := s.(procs := s.procs[i := p.(pc := FirstClose(r, rec))]);
    var s3 := s.(procs := s.procs[i := p.(pc := Editing(r, rec))]);
    t := s.(procs := s.procs[i := p.(pc := LockWait(r, rec, wrk))]);
    assert Enabled(s, Choose(i, r)) && Apply(d, s, Choose(i, r)) == s1;
    assert Enabled(s1, go) && Apply(d, s1, go) == s2;
    assert Enabled(s2, go) && Apply(d, s2, go) == s3;
    assert Enabled(s3, go) && Apply(d, s3, go) == t;
    hide Apply, Enabled, Reaches;
    Extend(d, file, s, Choose(i, r));
    Extend(d, file, s1, go);
    Extend(d, file, s2, go);
    Extend(d, file, s3, go);
  }

  /** It takes the lock, reads again, loses the lock by doing so, and goes on to write. */
  lemma ToPut(file: seq<Record>, s: State, i: nat, r: nat, wrk: Record) returns (t: State)
    requires Reaches(DroppedOnClose, file, s) && s.locks == AllFree(|s.file|) && r < |s.file|
    requires i < |s.procs| && s.procs[i].pc == LockWait(r, s.file[r], wrk)
    ensures Reaches(DroppedOnClose, file, t)
    ensures t == s.(procs := s.procs[i := Process(Put(r, s.file[r], wrk), s.procs[i].first, |s.log|)])
  {
    ReleaseOnly(|s.file|, r, i);
    var d, go, rec := DroppedOnClose, Step(i, wrk), s.file[r];
    var p := s.procs[i].(second := |s.log|);
    var s1 := MoveTo(s, i, Reread(r, rec, wrk)).(locks := s.locks[r := HeldBy(i)]);
    var s2 := s1.(procs := s.procs[i := p.(pc := RereadClose(r, rec, wrk, rec))]);
    var s3 := s.(procs := s.procs[i := p.(pc := Compare(r, rec, wrk, rec))]);
    t := s.(procs := s.procs[i := p.(pc := Put(r, rec, wrk))]);
    assert Enabled(s, go) && Apply(d, s, go) == s1;
    assert Enabled(s1, go) && Apply(d, s1, go) == s2;
    assert Enabled(s2, go) && Apply(d, s2, go) == s3;
    assert Enabled(s3, go) && Apply(d, s3, go) == t;
    hide Apply, Enabled, Reaches;
    Extend(d, file, s, go);
    Extend(d, file, s1, go);
    Extend(d, file, s2, go);
    Extend(d, file, s3, go);
  }

  lemma TwoProcesses(file: seq<Record>) returns (s: State)
    ensures Reaches(DroppedOnClose, file, s)
    ensures s == State(file, AllFree(|file|), [Process(Menu, 0, 0), Process(Menu, 0, 0)], [])
  {
    var d := DroppedOnClose;
    var s0 := State(file, AllFree(|file|), [], []);
    assert IsRun(d, [s0], []) && [s0][0].file == file;
    var s1 := s0.(procs := [Process(Menu, 0, 0)]);
    s := s0.(procs := [Process(Menu, 0, 0), Process(Menu, 0, 0)]);
    assert Apply(d, s0, Start) == s1 && Apply(d, s1, Start) == s;
    Extend(d, file, s0, Start);
    Extend(d, file, s1, Start);
  }

  /** When a close drops the locks an update can be lost: in any file, for any record and any two edits of it, two
      processes both report success although the second never saw what the first wrote. */
  lemma LostUpdate(file: seq<Record>, r: nat, a: Record, b: Record) returns (s: State)
    requires r < |file| && a != file[r] && b != file[r]
    ensures Reaches(DroppedOnClose, file, s)
    ensures s.file == file[r := b] && s.log == [Commit(0, r, file[r], a, 0), Commit(1, r, file[r], b, 0)]
    ensures !Chained(s.log, r, file[r])
  {
    var d := DroppedOnClose;
    hide Reaches, AllFree;
    s := TwoProcesses(file);
    s := ToLock(file, s, 0, r, a);
    s := ToPut(file, s, 0, r, a);
    s := ToLock(file, s, 1, r, b);
    s := ToPut(file, s, 1, r, b);
    Extend(d, file, s, Step(0, a));
    s := Apply(d, s, Step(0, a));
    Extend(d, file, s, Step(1, b));
    s := Apply(d, s, Step(1, b));
    assert s.log[1].base == file[r] && Value(s.log, 1, r, file[r]) == a;
  }

  /** No update is ever lost, in any run from any file with a record, exactly when locks are held until
      unlock_record. */
  lemma NoLostUpdateIff(d: Discipline)
    ensures (forall file: seq<Record>, s: State, r: nat | Reaches(d, file, s) && r < |file| ::
               Chained(s.log, r, file[r])) <==> d == HeldUntilUnlock
  {
    if d == HeldUntilUnlock {
      forall file: seq<Record>, s: State, r: nat | Reaches(d, file, s) && r < |file|
        ensures Chained(s.log, r, file[r])
      {
        var run: seq<State>, acts: seq<Action> :| IsRun(d, run, acts) && run[0].file == file && run[|run| - 1] == s;
        ReachableHeld(run, acts, |run| - 1);
      }
    } else {
      var x: Record := seq(RECORD_SIZE, _ => 0);
      var y: Record := seq(RECORD_SIZE, _ => 1);
      assert x[0] != y[0];
      var s := LostUpdate([x], 0, y, y);
      assert Reaches(d, [x], s) && !Chained(s.log, 0, [x][0]);
    }
  }
}
