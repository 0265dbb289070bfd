/** Publication of one cache entry by any number of publishers, as steps on the shared file system.
    Every publisher may crash at any step, and every file operation may fail.  Reclaiming a stale lock is one step
    that tests that the holder is gone and unlinks the lock. */
module CacheProtocol {
  import opened Wrappers

  datatype FileName = Model | Decode | Manifest | KeyFile

  /** Who wrote a file, and whether all of it was written. */
  datatype File = File(author: nat, whole: bool)

  type Folder = map<FileName, File>

  datatype Outcome = Existing | Published | Failed

  datatype Pc = Idle | Acquiring(tries: nat) | Check | MakeStaging | Writing(file: FileName, begun: bool) | Recheck
              | RemoveOld | Rename | Cleanup(outcome: Outcome) | Release(outcome: Outcome) | Done(outcome: Outcome)
              | Crashed

  /** The lock with the holder written in it, the entry, a staging folder for each publisher, and where each is. */
  datatype State = State(lock: Option<nat>, entry: Option<Folder>, staging: map<nat, Folder>, pc: map<nat, Pc>)

  const TRIES := 500

  /** A lookup finds an entry when it has a manifest and a model. */
  predicate Complete(entry: Option<Folder>) {
    entry.Some? && Manifest in entry.value && Model in entry.value
  }

  predicate PastLock(pc: Pc) {
    !pc.Idle? && !pc.Acquiring? && !pc.Done? && !pc.Crashed?
  }

  predicate Gone(s: State, p: nat) {
    p in s.pc ==> s.pc[p].Done? || s.pc[p].Crashed?
  }

  function Goes(s: State, p: nat, pc: Pc): State { s.(pc := s.pc[p := pc]) }

  function Put(s: State, p: nat, name: FileName, file: File): State
    requires p in s.staging
  {
    s.(staging := s.staging[p := s.staging[p][name := file]])
  }

  /** What is written next; the publishers in decoding have a decode module to write. */
  function AfterWriting(name: FileName, p: nat, decoding: set<nat>): Pc {
    match name
    case Model => if p in decoding then Writing(Decode, false) else Writing(Manifest, false)
    case Decode => Writing(Manifest, false)
    case Manifest => Writing(KeyFile, false)
    case KeyFile => Recheck
  }

  // ---- steps ----

  ghost predicate AcquireStep(s: State, s': State, p: nat, tries: nat) {
    || (tries < TRIES && s.lock.None? && s' == Goes(s.(lock := Some(p)), p, Check))
    || (tries < TRIES && s.lock.Some? && Gone(s, s.lock.value) && s' == Goes(s.(lock := None), p, Acquiring(tries + 1)))
    || (tries < TRIES && s.lock.Some? && s' == Goes(s, p, Acquiring(tries + 1)))
    || s' == Goes(s, p, Done(Failed))
  }

  ghost predicate WriteStep(decoding: set<nat>, s: State, s': State, p: nat, name: FileName, begun: bool) {
    || (p in s.staging && !begun && s' == Goes(Put(s, p, name, File(p, false)), p, Writing(name, true)))
    || (p in s.staging && begun && s' == Goes(Put(s, p, name, File(p, true)), p, AfterWriting(name, p, decoding)))
    || s' == Goes(s, p, Cleanup(Failed))
  }

  function AfterRecheck(entry: Option<Folder>): Pc {
    if Complete(entry) then Cleanup(Existing) else if entry.Some? then RemoveOld else Rename
  }

  /** An old folder is removed file by file. */
  ghost predicate RemoveStep(s: State, s': State, p: nat) {
    || (s.entry.Some? && exists f :: f in s.entry.value && s' == s.(entry := Some(s.entry.value - {f})))
    || (s.entry == Some(map[]) && s' == Goes(s.(entry := None), p, Rename))
    || s' == Goes(s, p, Cleanup(Failed))
  }

  ghost predicate RenameStep(s: State, s': State, p: nat) {
    || (s.entry.None? && p in s.staging
        && s' == Goes(s.(entry := Some(s.staging[p]), staging := s.staging - {p}), p, Cleanup(Published)))
    || s' == Goes(s, p, Cleanup(Failed))
  }

  /** One step of a publisher that is not gone. */
  ghost predicate Step(decoding: set<nat>, s: State, s': State, p: nat)
    requires p in s.pc
  {
    match s.pc[p]
    case Idle => s' == Goes(s, p, Acquiring(0))
    case Acquiring(tries) => AcquireStep(s, s', p, tries)
    case Check => s' == Goes(s, p, if Complete(s.entry) then Release(Existing) else MakeStaging)
    case MakeStaging =>
      s' == Goes(s.(staging := s.staging[p := map[]]), p, Writing(Model, false)) || s' == Goes(s, p, Release(Failed))
    case Writing(name, begun) => WriteStep(decoding, s, s', p, name, begun)
    case Recheck => s' == Goes(s, p, AfterRecheck(s.entry))
    case RemoveOld => RemoveStep(s, s', p)
    case Rename => RenameStep(s, s', p)
    case Cleanup(o) => s' == Goes(s.(staging := s.staging - {p}), p, Release(o)) || s' == Goes(s, p, Release(o))
    case Release(o) => s' == Goes(s.(lock := None), p, Done(o)) || s' == Goes(s, p, Done(o))
    case Done(_) => false
    case Crashed => false
  }

  ghost predicate Next(decoding: set<nat>, s: State, s': State) {
    exists p :: p in s.pc && (Step(decoding, s, s', p) || (!Gone(s, p) && s' == Goes(s, p, Crashed)))
  }

  // ---- what holds in every state ----

  /** The files of one publisher, all of them and complete. */
  predicate FullBy(decoding: set<nat>, folder: Folder, a: nat) {
    && folder.Keys == {Model, Manifest, KeyFile} + (if a in decoding then {Decode} else {})
    && forall f :: f in folder ==> folder[f] == File(a, true)
  }

  /** The files in front of this one. */
  function Before(name: FileName, withDecode: bool): set<FileName> {
    match name
    case Model => {}
    case Decode => {Model}
    case Manifest => if withDecode then {Model, Decode} else {Model}
    case KeyFile => if withDecode then {Model, Decode, Manifest} else {Model, Manifest}
  }

  predicate StagedUpTo(decoding: set<nat>, folder: Folder, p: nat, name: FileName, begun: bool) {
    && (name.Decode? ==> p in decoding)
    && folder.Keys == Before(name, p in decoding) + (if begun then {name} else {})
    && forall f :: f in Before(name, p in decoding) ==> f in folder && folder[f] == File(p, true)
  }

  /** What a publisher at this point may rely on. */
  predicate LocalInv(decoding: set<nat>, s: State, p: nat, pc: Pc) {
    && (PastLock(pc) ==> s.lock == Some(p))
    && (pc.Writing? ==> p in s.staging && StagedUpTo(decoding, s.staging[p], p, pc.file, pc.begun))
    && (pc.Recheck? || pc.RemoveOld? || pc.Rename? ==> p in s.staging && FullBy(decoding, s.staging[p], p))
    && (pc.RemoveOld? || pc.Rename? ==> !Complete(s.entry))
    && (pc.Cleanup? || pc.Release? || pc.Done? ==>
          && (pc.outcome != Failed ==> Complete(s.entry))
          && (pc.outcome == Published ==> FullBy(decoding, s.entry.value, p)))
  }

  ghost predicate EntryInv(decoding: set<nat>, entry: Option<Folder>) {
    Complete(entry) ==> FullBy(decoding, entry.value, entry.value[Model].author)
  }

  ghost predicate Inv(decoding: set<nat>, s: State) {
    && EntryInv(decoding, s.entry)
    && forall p :: p in s.pc ==> LocalInv(decoding, s, p, s.pc[p])
  }

  /** At the start nobody is past the lock; there may be a lock, a broken entry, or a good one by an earlier publisher. */
  ghost predicate Init(decoding: set<nat>, s: State) {
    (forall p :: p in s.pc ==> s.pc[p] == Idle) && EntryInv(decoding, s.entry)
  }

  /** The entry only changes while it is incomplete, and only by the publisher past the lock. */
  predicate EntryKept(s: State, s': State) {
    Complete(s.entry) ==> s'.entry == s.entry
  }

  lemma InitKeeps(decoding: set<nat>, s: State)
    requires Init(decoding, s)
    ensures Inv(decoding, s)
  {
  }

  /** What a step changes for the others. */
  lemma OthersKeep(decoding: set<nat>, s: State, s': State, p: nat)
    requires Inv(decoding, s) && p in s.pc
    requires s'.pc.Keys == s.pc.Keys && forall q :: q in s.pc && q != p ==> s'.pc[q] == s.pc[q]
    requires forall q :: q in s.staging && q != p ==> q in s'.staging && s'.staging[q] == s.staging[q]
    requires EntryKept(s, s')
    requires s'.entry != s.entry ==> PastLock(s.pc[p])
    requires s'.lock == s.lock || PastLock(s.pc[p]) || s.lock.None? || (s.lock.Some? && Gone(s, s.lock.value))
    ensures forall q :: q in s'.pc && q != p ==> LocalInv(decoding, s', q, s'.pc[q])
  {
    forall q | q in s'.pc && q != p ensures LocalInv(decoding, s', q, s'.pc[q]) {
      assert LocalInv(decoding, s, q, s.pc[q]) && LocalInv(decoding, s, p, s.pc[p]);
    }
  }

  /** The staging folder after a file was begun or finished. */
  lemma StagingGrows(decoding: set<nat>, folder: Folder, p: nat, name: FileName, begun: bool)
    requires StagedUpTo(decoding, folder, p, name, begun)
    ensures !begun ==> StagedUpTo(decoding, folder[name := File(p, false)], p, name, true)
    ensures begun ==> StagedNext(decoding, folder[name := File(p, true)], p, AfterWriting(name, p, decoding))
  {
  }

  predicate StagedNext(decoding: set<nat>, folder: Folder, p: nat, pc: Pc) {
    if pc.Writing? then StagedUpTo(decoding, folder, p, pc.file, pc.begun) else FullBy(decoding, folder, p)
  }

  /** Of all that is on disk only a file of the publisher's own staging folder changes. */
  ghost predicate OnlyStages(s: State, s': State, p: nat, name: FileName) {
    && s'.lock == s.lock && s'.entry == s.entry && s'.staging.Keys == s.staging.Keys
    && (forall q :: q in s.staging && q != p ==> s'.staging[q] == s.staging[q])
    && forall f :: p in s.staging && f in s.staging[p] && f != name ==>
         f in s'.staging[p] && s'.staging[p][f] == s.staging[p][f]
  }

  lemma WriteKeeps(decoding: set<nat>, s: State, s': State, p: nat, name: FileName, begun: bool)
    requires Inv(decoding, s) && p in s.pc && s.pc[p] == Writing(name, begun)
    requires WriteStep(decoding, s, s', p, name, begun)
    ensures Inv(decoding, s') && EntryKept(s, s') && OnlyStages(s, s', p, name)
  {
    OthersKeep(decoding, s, s', p);
    WriterKeeps(decoding, s, s', p, name, begun);
  }

  lemma WriterKeeps(decoding: set<nat>, s: State, s': State, p: nat, name: FileName, begun: bool)
    requires s.pc.Keys >= {p} && s.pc[p] == Writing(name, begun) && LocalInv(decoding, s, p, s.pc[p])
    requires WriteStep(decoding, s, s', p, name, begun)
    ensures LocalInv(decoding, s', p, s'.pc[p])
  {
    StagingGrows(decoding, s.staging[p], p, name, begun);
  }

  lemma RemoveKeeps(decoding: set<nat>, s: State, s': State, p: nat)
    requires Inv(decoding, s) && p in s.pc && s.pc[p] == RemoveOld && RemoveStep(s, s', p)
    ensures Inv(decoding, s') && EntryKept(s, s')
  {
    assert LocalInv(decoding, s, p, s.pc[p]);
    OthersKeep(decoding, s, s', p);
  }

  /** An entry appears where there was none, with all the files of its publisher. */
  predicate Appears(decoding: set<nat>, before: Option<Folder>, after: Option<Folder>, p: nat) {
    before.None? && after.Some? && FullBy(decoding, after.value, p)
  }

  lemma RenameKeeps(decoding: set<nat>, s: State, s': State, p: nat)
    requires Inv(decoding, s) && p in s.pc && s.pc[p] == Rename && RenameStep(s, s', p)
    ensures Inv(decoding, s') && EntryKept(s, s')
    ensures if s'.pc[p] == Cleanup(Published) then Appears(decoding, s.entry, s'.entry, p)
            else s'.entry == s.entry && s'.staging == s.staging
  {
    assert LocalInv(decoding, s, p, s.pc[p]);
    OthersKeep(decoding, s, s', p);
  }

  lemma AcquireKeeps(decoding: set<nat>, s: State, s': State, p: nat)
    requires Inv(decoding, s) && p in s.pc && s.pc[p].Acquiring? && AcquireStep(s, s', p, s.pc[p].tries)
    ensures Inv(decoding, s') && s'.entry == s.entry
  {
    OthersKeep(decoding, s, s', p);
  }

  /** Every other step leaves the entry alone. */
  lemma QuietKeeps(decoding: set<nat>, s: State, s': State, p: nat)
    requires Inv(decoding, s) && p in s.pc && Step(decoding, s, s', p)
    requires !s.pc[p].Writing? && !s.pc[p].RemoveOld? && !s.pc[p].Rename? && !s.pc[p].Acquiring?
    ensures Inv(decoding, s') && s'.entry == s.entry
  {
    QuietOwnKeeps(decoding, s, s', p);
    OthersKeep(decoding, s, s', p);
  }

  lemma QuietOwnKeeps(decoding: set<nat>, s: State, s': State, p: nat)
    requires p in s.pc && LocalInv(decoding, s, p, s.pc[p]) && Step(decoding, s, s', p)
    requires !s.pc[p].Writing? && !s.pc[p].RemoveOld? && !s.pc[p].Rename? && !s.pc[p].Acquiring?
    ensures p in s'.pc && LocalInv(decoding, s', p, s'.pc[p]) && s'.entry == s.entry
  {
  }

  lemma CrashKeeps(decoding: set<nat>, s: State, s': State, p: nat)
    requires Inv(decoding, s) && p in s.pc && s' == Goes(s, p, Crashed)
    ensures Inv(decoding, s') && s'.entry == s.entry
  {
    OthersKeep(decoding, s, s', p);
  }

  lemma NextKeeps(decoding: set<nat>, s: State, s': State)
    requires Inv(decoding, s) && Next(decoding, s, s')
    ensures Inv(decoding, s') && EntryKept(s, s')
  {
    var p :| p in s.pc && (Step(decoding, s, s', p) || (!Gone(s, p) && s' == Goes(s, p, Crashed)));
    if Step(decoding, s, s', p) {
      match s.pc[p]
      case Writing(name, begun) => WriteKeeps(decoding, s, s', p, name, begun);
      case Acquiring(_) => AcquireKeeps(decoding, s, s', p);
      case RemoveOld => RemoveKeeps(decoding, s, s', p);
      case Rename => RenameKeeps(decoding, s, s', p);
      case _ => QuietKeeps(decoding, s, s', p);
    } else {
      CrashKeeps(decoding, s, s', p);
    }
  }

  // ---- whole runs ----

  ghost predicate Run(decoding: set<nat>, run: seq<State>) {
    && run != [] && Init(decoding, run[0])
    && forall i :: 0 <= i < |run| - 1 ==> Next(decoding, run[i], run[i + 1])
  }

  lemma {:induction false} RunKeeps(decoding: set<nat>, run: seq<State>, i: nat)
    requires Run(decoding, run) && i < |run|
    ensures Inv(decoding, run[i])
  {
    if i == 0 {
      InitKeeps(decoding, run[0]);
    } else {
      RunKeeps(decoding, run, i - 1);
      assert Next(decoding, run[i - 1], run[i - 1 + 1]);
      NextKeeps(decoding, run[i - 1], run[i]);
    }
  }

  lemma RunKeepsEntry(decoding: set<nat>, run: seq<State>, i: nat)
    requires Run(decoding, run) && i + 1 < |run|
    ensures EntryKept(run[i], run[i + 1])
  {
    RunKeeps(decoding, run, i);
    assert Next(decoding, run[i], run[i + 1]);
    NextKeeps(decoding, run[i], run[i + 1]);
  }

  /** At most one publisher is past the lock. */
  lemma MutualExclusion(decoding: set<nat>, run: seq<State>, i: nat, p: nat, q: nat)
    requires Run(decoding, run) && i < |run| && p in run[i].pc && q in run[i].pc
    requires PastLock(run[i].pc[p]) && PastLock(run[i].pc[q])
    ensures p == q
  {
    RunKeeps(decoding, run, i);
    assert LocalInv(decoding, run[i], p, run[i].pc[p]) && LocalInv(decoding, run[i], q, run[i].pc[q]);
  }

  lemma {:induction false} KeptStays(run: seq<State>, i: nat, j: nat)
    requires i <= j < |run| && Complete(run[i].entry)
    requires forall k :: i <= k < j ==> EntryKept(run[k], run[k + 1])
    ensures run[j].entry == run[i].entry
    decreases j
  {
    if i < j {
      KeptStays(run, i, j - 1);
      assert EntryKept(run[j - 1], run[j - 1 + 1]);
    }
  }

  /** Once complete, an entry is never changed or removed. */
  lemma CompleteStays(decoding: set<nat>, run: seq<State>, i: nat, j: nat)
    requires Run(decoding, run) && i <= j < |run| && Complete(run[i].entry)
    ensures run[j].entry == run[i].entry
  {
    forall k | i <= k < j ensures EntryKept(run[k], run[k + 1]) {
      RunKeepsEntry(decoding, run, k);
    }
    KeptStays(run, i, j);
  }

  /** All files of a complete entry are whole and come from one publisher. */
  lemma CompleteIsUniform(decoding: set<nat>, run: seq<State>, i: nat)
    requires Run(decoding, run) && i < |run| && Complete(run[i].entry)
    ensures exists a :: FullBy(decoding, run[i].entry.value, a)
  {
    RunKeeps(decoding, run, i);
    assert FullBy(decoding, run[i].entry.value, run[i].entry.value[Model].author);
  }

  /** A publisher that returns an entry returns a complete one. */
  lemma SuccessMeansComplete(decoding: set<nat>, run: seq<State>, i: nat, p: nat)
    requires Run(decoding, run) && i < |run| && p in run[i].pc && run[i].pc[p].Done? && run[i].pc[p].outcome != Failed
    ensures Complete(run[i].entry)
  {
    RunKeeps(decoding, run, i);
    assert LocalInv(decoding, run[i], p, run[i].pc[p]);
  }

  /** At most one publisher publishes; the others that succeed return its entry. */
  lemma OnePublishes(decoding: set<nat>, run: seq<State>, i: nat, p: nat, q: nat)
    requires Run(decoding, run) && i < |run| && p in run[i].pc && q in run[i].pc
    requires run[i].pc[p] == Done(Published) && run[i].pc[q] == Done(Published)
    ensures p == q
  {
    RunKeeps(decoding, run, i);
    assert LocalInv(decoding, run[i], p, run[i].pc[p]) && LocalInv(decoding, run[i], q, run[i].pc[q]);
    assert run[i].entry.value[Model] == File(p, true) == File(q, true);
  }
}
