/**
 The journal lock of cli/src/recovery.ts: a directory whose `owner.json` names a process by
 pid and birth time and a contender by a random nonce. Any number of contenders interleave
 their single file-system and process-table operations; processes start and end freely, and
 a pid can be used again. As in the source, the last owner check of a save and its rename,
 and the owner check of a release and its removal, are taken as one step each.
 */
module RecoveryLock {
  import opened Prelude

  /** A process: the birth identity separates it from a later one with the same pid. */
  datatype Process = Process(pid: nat, birth: nat)

  datatype Pc =
    | Making                      // mkdir of the lock
    | Reading                     // it existed: read owner.json
    | Probing(owner: nat)         // kill(pid, 0)
    | Dating(owner: nat)          // birth time of the live pid
    | Removing(owner: nat)        // the recorded owner is gone: rm of the lock
    | Remaking                    // mkdir again
    | Writing                     // owner.json
    | Loading                     // the journal
    | Holding
    | Finished

  /** The journal on disk; `fingerprint` covers the files and the parameters of the publication. */
  datatype Journal = Journal(fingerprint: nat, content: nat)

  /** A contender is known by its nonce, its position in `contenders`. `journal` is what it last loaded
      or saved. */
  datatype Contender = Contender(process: Process, fingerprint: nat, pc: Pc, journal: Option<Journal>)

  datatype Lock = Absent | Present(owner: Option<nat>)

  datatype State = State(
    lock: Lock,
    file: Option<Journal>,
    alive: set<Process>,
    ended: set<Process>,
    contenders: seq<Contender>)

  const INITIAL := State(Absent, None, {}, {}, [])

  datatype Action =
    | Spawn(process: Process)
    | Exit(process: Process)
    | Enter(process: Process, fingerprint: nat)
    | Advance(nonce: nat)
    | GiveUp(nonce: nat)
    | Save(nonce: nat, content: nat)
    | Release(nonce: nat)

  predicate PidInUse(s: State, pid: nat) {
    exists p :: p in s.alive && p.pid == pid
  }

  function Put(s: State, nonce: nat, c: Contender): State
    requires nonce < |s.contenders|
  {
    s.(contenders := s.contenders[nonce := c])
  }

  predicate Owns(s: State, nonce: nat) {
    s.lock == Present(Some(nonce))
  }

  predicate OwnerKnown(s: State, owner: nat) {
    owner < |s.contenders|
  }

  function ReleaseStep(s: State, nonce: nat): State
    requires nonce < |s.contenders|
  {
    var c := s.contenders[nonce];
    Put(if Owns(s, nonce) then s.(lock := Absent) else s, nonce, c.(pc := Finished))
  }

  /** One operation of an acquiring contender. */
  function AdvanceStep(s: State, nonce: nat): State
    requires nonce < |s.contenders|
  {
    var c := s.contenders[nonce];
    match c.pc
    case Making =>
      if s.lock.Absent? then Put(s.(lock := Present(None)), nonce, c.(pc := Writing))
      else Put(s, nonce, c.(pc := Reading))
    case Reading =>
      if s.lock.Present? && s.lock.owner.Some? then Put(s, nonce, c.(pc := Probing(s.lock.owner.value)))
      else Put(s, nonce, c.(pc := Finished))
    case Probing(owner) =>
      if OwnerKnown(s, owner) && PidInUse(s, s.contenders[owner].process.pid)
      then Put(s, nonce, c.(pc := Dating(owner)))
      else Put(s, nonce, c.(pc := Removing(owner)))
    case Dating(owner) =>
      // "already running" only when the live pid has the recorded birth time
      if OwnerKnown(s, owner) && s.contenders[owner].process in s.alive
      then Put(s, nonce, c.(pc := Finished))
      else Put(s, nonce, c.(pc := Removing(owner)))
    case Removing(_) =>
      if s.lock.Absent? then Put(s, nonce, c.(pc := Finished))
      else Put(s.(lock := Absent), nonce, c.(pc := Remaking))
    case Remaking =>
      if s.lock.Absent? then Put(s.(lock := Present(None)), nonce, c.(pc := Writing))
      else Put(s, nonce, c.(pc := Finished))
    case Writing =>
      if s.lock.Present? then Put(s.(lock := Present(Some(nonce))), nonce, c.(pc := Loading))
      else Put(s, nonce, c.(pc := Finished))
    case Loading =>
      // the same operation key with other files or parameters is refused
      if s.file.Some? && s.file.value.fingerprint != c.fingerprint then ReleaseStep(s, nonce)
      else Put(s, nonce, c.(journal := s.file, pc := Holding))
    case Holding => s
    case Finished => s
  }

  function SaveStep(s: State, nonce: nat, content: nat): State
    requires nonce < |s.contenders|
  {
    var c := s.contenders[nonce];
    var j := Some(Journal(c.fingerprint, content));
    if Owns(s, nonce) then Put(s.(file := j), nonce, c.(journal := j))
    else Put(s, nonce, c.(pc := Finished))
  }

  predicate Running(s: State, nonce: nat) {
    nonce < |s.contenders| && s.contenders[nonce].process in s.alive
  }

  predicate Enabled(s: State, a: Action) {
    match a
    case Spawn(p) => p !in s.alive && p !in s.ended && !PidInUse(s, p.pid)
    case Exit(p) => p in s.alive
    case Enter(p, _) => p in s.alive
    case Advance(n) => Running(s, n)
    case GiveUp(n) => Running(s, n) && !s.contenders[n].pc.Holding?
    case Save(n, _) => Running(s, n) && s.contenders[n].pc.Holding?
    case Release(n) => Running(s, n) && (s.contenders[n].pc.Holding? || s.contenders[n].pc.Loading?)
  }

  function Apply(s: State, a: Action): State
    requires Enabled(s, a)
  {
    match a
    case Spawn(p) => s.(alive := s.alive + {p})
    case Exit(p) => s.(alive := s.alive - {p}, ended := s.ended + {p})
    case Enter(p, f) => s.(contenders := s.contenders + [Contender(p, f, Making, None)])
    case Advance(n) => AdvanceStep(s, n)
    case GiveUp(n) => Put(s, n, s.contenders[n].(pc := Finished))
    case Save(n, content) => SaveStep(s, n, content)
    case Release(n) => ReleaseStep(s, n)
  }

  function Run(s: State, actions: seq<Action>): Option<State>
    decreases |actions|
  {
    if actions == [] then Some(s)
    else if Enabled(s, actions[0]) then Run(Apply(s, actions[0]), actions[1..])
    else None
  }

  // ----- the invariant -----

  predicate BeforeWriting(pc: Pc) {
    !pc.Loading? && !pc.Holding? && !pc.Finished?
  }

  function Target(pc: Pc): Option<nat> {
    match pc
    case Probing(owner) => Some(owner)
    case Dating(owner) => Some(owner)
    case Removing(owner) => Some(owner)
    case _ => None
  }

  /** `n` has read `owner` from the lock and may be about to remove it. */
  ghost predicate Aims(s: State, n: nat, owner: nat) {
    n < |s.contenders| && Target(s.contenders[n].pc) == Some(owner)
  }

  /** `n` has recorded itself as owner, or gave up before that. */
  ghost predicate Past(s: State, n: nat) {
    n < |s.contenders| && !BeforeWriting(s.contenders[n].pc)
  }

  ghost predicate Gone(s: State, n: nat) {
    n < |s.contenders| && s.contenders[n].process in s.ended
  }

  ghost predicate ProcessesAgree(s: State) {
    && s.alive !! s.ended
    && (forall p, q :: p in s.alive && q in s.alive && p.pid == q.pid ==> p == q)
    && (forall n :: 0 <= n < |s.contenders| ==>
          s.contenders[n].process in s.alive || s.contenders[n].process in s.ended)
  }

  /** A contender about to remove the lock has seen the process of the owner it read end. */
  ghost predicate AimsAgree(s: State) {
    && (forall n: nat, owner: nat :: Aims(s, n, owner) ==> Past(s, owner))
    && (forall n: nat, owner: nat :: Aims(s, n, owner) && s.contenders[n].pc.Removing? ==> Gone(s, owner))
  }

  /** An owner that has loaded the journal is in step with the file. */
  ghost predicate OwnerAgrees(s: State) {
    s.lock.Present? && s.lock.owner.Some? ==>
      var n := s.lock.owner.value;
      Past(s, n) && (s.contenders[n].pc.Holding? ==>
        && s.contenders[n].journal == s.file
        && (s.file.Some? ==> s.file.value.fingerprint == s.contenders[n].fingerprint))
  }

  ghost predicate Inv(s: State) {
    ProcessesAgree(s) && AimsAgree(s) && OwnerAgrees(s)
  }

  lemma KeepProcesses(s: State, a: Action)
    requires Inv(s) && Enabled(s, a)
    requires a.Spawn? || a.Exit? || a.Enter?
    ensures Inv(Apply(s, a))
  {
    assert forall n: nat, owner: nat :: Aims(Apply(s, a), n, owner) ==> Aims(s, n, owner);
  }

  lemma KeepHolder(s: State, a: Action)
    requires Inv(s) && Enabled(s, a)
    requires a.GiveUp? || a.Save? || a.Release?
    ensures Inv(Apply(s, a))
  {
    assert forall n: nat, owner: nat :: Aims(Apply(s, a), n, owner) ==> Aims(s, n, owner);
  }

  lemma KeepProbing(s: State, n: nat)
    requires Inv(s) && Running(s, n)
    requires s.contenders[n].pc.Probing?
    ensures Inv(AdvanceStep(s, n))
  {
    var s' := AdvanceStep(s, n);
    assert forall m: nat, owner: nat :: Aims(s', m, owner) ==> Aims(s, m, owner);
  }

  lemma KeepDating(s: State, n: nat)
    requires Inv(s) && Running(s, n) && s.contenders[n].pc.Dating?
    ensures Inv(AdvanceStep(s, n))
  {
    var s' := AdvanceStep(s, n);
    assert forall m: nat, owner: nat :: Aims(s', m, owner) ==> Aims(s, m, owner);
  }

  lemma KeepReading(s: State, n: nat)
    requires Inv(s) && Running(s, n) && s.contenders[n].pc.Reading?
    ensures Inv(AdvanceStep(s, n))
  {
    var s' := AdvanceStep(s, n);
    assert forall m: nat, owner: nat :: Aims(s', m, owner) && m != n ==> Aims(s, m, owner);
    assert forall owner: nat :: Aims(s', n, owner) ==> Aims(s, n, owner) || Owns(s, owner);
  }

  lemma KeepLocking(s: State, n: nat)
    requires Inv(s) && Running(s, n)
    requires s.contenders[n].pc.Making? || s.contenders[n].pc.Removing? || s.contenders[n].pc.Remaking?
    ensures Inv(AdvanceStep(s, n))
  {
    var s' := AdvanceStep(s, n);
    assert forall m: nat, owner: nat :: Aims(s', m, owner) && m != n ==> Aims(s, m, owner);
  }

  lemma KeepTaking(s: State, n: nat)
    requires Inv(s) && Running(s, n)
    requires s.contenders[n].pc.Writing? || s.contenders[n].pc.Loading?
    ensures Inv(AdvanceStep(s, n))
  {
    var s' := AdvanceStep(s, n);
    assert forall m: nat, owner: nat :: Aims(s', m, owner) && m != n ==> Aims(s, m, owner);
  }

  lemma KeepInv(s: State, a: Action)
    requires Inv(s) && Enabled(s, a)
    ensures Inv(Apply(s, a))
  {
    match a
    case Advance(n) =>
      match s.contenders[n].pc {
        case Making => KeepLocking(s, n);
        case Reading => KeepReading(s, n);
        case Probing(_) => KeepProbing(s, n);
        case Dating(_) => KeepDating(s, n);
        case Removing(_) => KeepLocking(s, n);
        case Remaking => KeepLocking(s, n);
        case Writing => KeepTaking(s, n);
        case Loading => KeepTaking(s, n);
        case Holding =>
        case Finished =>
      }
    case GiveUp(_) => KeepHolder(s, a);
    case Save(_, _) => KeepHolder(s, a);
    case Release(_) => KeepHolder(s, a);
    case _ => KeepProcesses(s, a);
  }

  lemma {:induction false} RunKeepsInv(s: State, actions: seq<Action>)
    requires Inv(s) && Run(s, actions).Some?
    ensures Inv(Run(s, actions).value)
    decreases |actions|
  {
    if actions != [] {
      KeepInv(s, actions[0]);
      RunKeepsInv(Apply(s, actions[0]), actions[1..]);
    }
  }

  // ----- fencing -----

  /** A contender that wrote its nonce and no longer finds it in the lock. */
  ghost predicate Displaced(s: State, nonce: nat) {
    Past(s, nonce) && !Owns(s, nonce)
  }

  lemma DisplacedStays(s: State, a: Action, nonce: nat)
    requires Enabled(s, a) && Displaced(s, nonce)
    ensures Displaced(Apply(s, a), nonce)
  {
  }

  /** Over every interleaving, overlapping reclaims included: a displaced contender never completes another
      save and never removes the new owner's lock. */
  lemma {:induction false} DisplacedIsFenced(s: State, actions: seq<Action>, nonce: nat, content: nat)
    requires Inv(s) && Displaced(s, nonce) && Run(s, actions).Some?
    ensures
      var s' := Run(s, actions).value;
      && Displaced(s', nonce)
      && SaveStep(s', nonce, content).file == s'.file
      && ReleaseStep(s', nonce).lock == s'.lock
    decreases |actions|
  {
    if actions != [] {
      KeepInv(s, actions[0]);
      DisplacedStays(s, actions[0], nonce);
      DisplacedIsFenced(Apply(s, actions[0]), actions[1..], nonce, content);
    }
  }

  /** No update is lost: a save that completes replaces exactly the journal that its contender last loaded
      or saved, in every run. */
  lemma NoLostUpdate(actions: seq<Action>, nonce: nat, content: nat)
    requires Run(INITIAL, actions).Some?
    requires
      var s := Run(INITIAL, actions).value;
      Enabled(s, Save(nonce, content)) && SaveStep(s, nonce, content).file != s.file
    ensures
      var s := Run(INITIAL, actions).value;
      Owns(s, nonce) && s.contenders[nonce].journal == s.file
  {
    RunKeepsInv(INITIAL, actions);
  }

  /** The files and parameters of a journal are fixed by its first save, in every run. */
  lemma {:induction false} FingerprintIsFixed(s: State, actions: seq<Action>)
    requires Inv(s) && s.file.Some? && Run(s, actions).Some?
    ensures
      var s' := Run(s, actions).value;
      s'.file.Some? && s'.file.value.fingerprint == s.file.value.fingerprint
    decreases |actions|
  {
    if actions != [] {
      KeepInv(s, actions[0]);
      FingerprintIsFixed(Apply(s, actions[0]), actions[1..]);
    }
  }

  // ----- live locks -----

  /** The lock names an owner whose process runs. */
  predicate LiveLock(s: State) {
    s.lock.Present? && s.lock.owner.Some? && Running(s, s.lock.owner.value)
  }

  /** The next step of `nonce` removes a lock that is not its own. */
  predicate Reclaims(s: State, nonce: nat) {
    Running(s, nonce) && s.contenders[nonce].pc.Removing? && s.lock.Present?
  }

  /**
   The guard that a reclaimer could check: as long as the lock still names the owner it judged, removing it takes no
   live lock away. Without the guard it can (`OneReclaimerRemovesALiveLock`).
   */
  lemma GuardedReclaimSparesLiveLocks(actions: seq<Action>, nonce: nat)
    requires Run(INITIAL, actions).Some? && Reclaims(Run(INITIAL, actions).value, nonce)
    ensures
      var s := Run(INITIAL, actions).value;
      s.lock.owner == Some(s.contenders[nonce].pc.owner) ==> !LiveLock(s)
  {
    RunKeepsInv(INITIAL, actions);
    var s := Run(INITIAL, actions).value;
    assert Aims(s, nonce, s.contenders[nonce].pc.owner);
  }

  // ----- the history of a reclaim -----

  /** The state before action `k` of a run. */
  function At(actions: seq<Action>, k: nat): State
    requires k <= |actions| && Run(INITIAL, actions[..k]).Some?
  {
    Run(INITIAL, actions[..k]).value
  }

  /** `nonce` reads the owner of the lock. */
  predicate Reads(s: State, a: Action, nonce: nat) {
    a == Advance(nonce) && nonce < |s.contenders| && s.contenders[nonce].pc.Reading?
  }

  /** `nonce` records itself as the owner. */
  predicate Takes(s: State, a: Action, nonce: nat) {
    a == Advance(nonce) && nonce < |s.contenders| && s.contenders[nonce].pc.Writing? && s.lock.Present?
  }

  lemma {:induction false} RunPrefix(s: State, actions: seq<Action>, k: nat)
    requires Run(s, actions).Some? && k <= |actions|
    ensures Run(s, actions[..k]).Some?
    ensures k < |actions| ==>
      && Enabled(Run(s, actions[..k]).value, actions[k])
      && Run(s, actions[..k + 1]) == Some(Apply(Run(s, actions[..k]).value, actions[k]))
    decreases |actions|
  {
    if k > 0 {
      assert actions[..k][1..] == actions[1..][..k - 1];
      assert k < |actions| ==> actions[..k + 1][1..] == actions[1..][..k];
      RunPrefix(Apply(s, actions[0]), actions[1..], k - 1);
    } else if actions != [] {
      var s' := Apply(s, actions[0]);
      assert actions[..1][1..] == [] && Run(s', []) == Some(s');
    }
  }

  /** Whoever owns the lock has taken it. */
  lemma {:induction false} TookBefore(actions: seq<Action>, k: nat, o: nat) returns (i: nat)
    requires Run(INITIAL, actions).Some? && k <= |actions|
    requires Run(INITIAL, actions[..k]).Some? && Owns(At(actions, k), o)
    ensures i < k && Run(INITIAL, actions[..i]).Some? && Takes(At(actions, i), actions[i], o)
    decreases k
  {
    assert k > 0 by {
      assert actions[..0] == [];
    }
    RunPrefix(INITIAL, actions, k - 1);
    if Owns(At(actions, k - 1), o) {
      i := TookBefore(actions, k - 1, o);
    } else {
      i := k - 1;
    }
  }

  /** Whoever is about to remove a lock has read its owner. */
  lemma {:induction false} ReadBefore(actions: seq<Action>, k: nat, n: nat, owner: nat) returns (j: nat)
    requires Run(INITIAL, actions).Some? && k <= |actions|
    requires Run(INITIAL, actions[..k]).Some? && Aims(At(actions, k), n, owner)
    ensures j < k && Run(INITIAL, actions[..j]).Some?
    ensures Reads(At(actions, j), actions[j], n) && Owns(At(actions, j), owner)
    decreases k
  {
    assert k > 0 by {
      assert actions[..0] == [];
    }
    RunPrefix(INITIAL, actions, k - 1);
    if Aims(At(actions, k - 1), n, owner) {
      j := ReadBefore(actions, k - 1, n, owner);
    } else {
      j := k - 1;
    }
  }

  lemma {:induction false} DisplacedLater(actions: seq<Action>, j: nat, k: nat, o: nat)
    requires Run(INITIAL, actions).Some? && j <= k <= |actions|
    requires Run(INITIAL, actions[..j]).Some? && Displaced(At(actions, j), o)
    ensures Run(INITIAL, actions[..k]).Some? && Displaced(At(actions, k), o)
    decreases k
  {
    if j < k {
      DisplacedLater(actions, j, k - 1, o);
      RunPrefix(INITIAL, actions, k - 1);
      DisplacedStays(At(actions, k - 1), actions[k - 1], o);
    }
  }

  lemma {:induction false} EndedLater(actions: seq<Action>, i: nat, k: nat, p: Process)
    requires Run(INITIAL, actions).Some? && i <= k <= |actions|
    requires Run(INITIAL, actions[..i]).Some? && p in At(actions, i).ended
    ensures Run(INITIAL, actions[..k]).Some? && p in At(actions, k).ended
    decreases k
  {
    if i < k {
      EndedLater(actions, i, k - 1, p);
      RunPrefix(INITIAL, actions, k - 1);
    }
  }

  lemma {:induction false} AliveLater(actions: seq<Action>, i: nat, k: nat, p: Process)
    requires Run(INITIAL, actions).Some? && i <= k <= |actions|
    requires Run(INITIAL, actions[..i]).Some? && p in At(actions, i).alive && Exit(p) !in actions[i..]
    ensures Run(INITIAL, actions[..k]).Some? && p in At(actions, k).alive
    decreases k
  {
    if i < k {
      AliveLater(actions, i, k - 1, p);
      RunPrefix(INITIAL, actions, k - 1);
      assert actions[k - 1] == actions[i..][k - 1 - i];
    }
  }

  /** A contender keeps its process. */
  lemma {:induction false} SameProcess(actions: seq<Action>, i: nat, k: nat, n: nat)
    requires Run(INITIAL, actions).Some? && i <= k <= |actions|
    requires Run(INITIAL, actions[..i]).Some? && n < |At(actions, i).contenders|
    ensures Run(INITIAL, actions[..k]).Some? && n < |At(actions, k).contenders|
    ensures At(actions, k).contenders[n].process == At(actions, i).contenders[n].process
    decreases k
  {
    if i < k {
      SameProcess(actions, i, k - 1, n);
      RunPrefix(INITIAL, actions, k - 1);
    }
  }

  /** The lock's owner took it after the reclaimer had read the lock, and its process has not ended since. */
  ghost predicate TakenSince(actions: seq<Action>, nonce: nat, o: nat, p: Process) {
    exists j: nat, i: nat :: TakenAt(actions, nonce, o, p, j, i)
  }

  ghost predicate TakenAt(actions: seq<Action>, nonce: nat, o: nat, p: Process, j: nat, i: nat) {
    && j < i < |actions| && Run(INITIAL, actions[..j]).Some? && Run(INITIAL, actions[..i]).Some?
    && Reads(At(actions, j), actions[j], nonce) && Takes(At(actions, i), actions[i], o)
    && Exit(p) !in actions[i..]
  }

  lemma LiveLockWasTakenSince(actions: seq<Action>, nonce: nat, o: nat)
    requires Run(INITIAL, actions).Some? && Reclaims(Run(INITIAL, actions).value, nonce)
    requires Owns(Run(INITIAL, actions).value, o) && Running(Run(INITIAL, actions).value, o)
    ensures TakenSince(actions, nonce, o, Run(INITIAL, actions).value.contenders[o].process)
  {
    var s, n := Run(INITIAL, actions).value, |actions|;
    assert actions[..n] == actions;
    RunKeepsInv(INITIAL, actions);
    var p, judged := s.contenders[o].process, s.contenders[nonce].pc.owner;
    assert Aims(s, nonce, judged);
    var i := TookBefore(actions, n, o);
    var j := ReadBefore(actions, n, nonce, judged);
    RunPrefix(INITIAL, actions, i);
    if i < j {
      TakerIsPast(actions, i, j, o);
      DisplacedLater(actions, j, n, o);
    }
    forall m | i <= m < n
      ensures actions[m] != Exit(p)
    {
      RunPrefix(INITIAL, actions, m);
      if actions[m] == Exit(p) {
        EndedLater(actions, m + 1, n, p);
      }
    }
    assert TakenAt(actions, nonce, o, p, j, i);
  }

  lemma {:induction false} TakerIsPast(actions: seq<Action>, i: nat, j: nat, o: nat)
    requires Run(INITIAL, actions).Some? && i < j <= |actions|
    requires Run(INITIAL, actions[..i]).Some? && Takes(At(actions, i), actions[i], o)
    ensures Run(INITIAL, actions[..j]).Some? && Past(At(actions, j), o)
    decreases j
  {
    RunPrefix(INITIAL, actions, j - 1);
    if i < j - 1 {
      TakerIsPast(actions, i, j - 1, o);
    }
  }

  lemma TakenSinceIsLive(actions: seq<Action>, nonce: nat, o: nat)
    requires Run(INITIAL, actions).Some? && Owns(Run(INITIAL, actions).value, o)
    requires o < |Run(INITIAL, actions).value.contenders|
    requires TakenSince(actions, nonce, o, Run(INITIAL, actions).value.contenders[o].process)
    ensures Running(Run(INITIAL, actions).value, o)
  {
    var n := |actions|;
    assert actions[..n] == actions;
    var p := Run(INITIAL, actions).value.contenders[o].process;
    var j: nat, i: nat :| TakenAt(actions, nonce, o, p, j, i);
    RunPrefix(INITIAL, actions, i);
    SameProcess(actions, i, n, o);
    AliveLater(actions, i, n, p);
  }

  /**
   A reclaim removes the lock of a live process exactly when that lock was taken after the reclaimer had read it, by a
   process that has not ended since.
   */
  lemma ReclaimRemovesLiveIffTakenSince(actions: seq<Action>, nonce: nat)
    requires Run(INITIAL, actions).Some? && Reclaims(Run(INITIAL, actions).value, nonce)
    ensures
      var s := Run(INITIAL, actions).value;
      LiveLock(s) <==>
        && s.lock.owner.Some? && s.lock.owner.value < |s.contenders|
        && TakenSince(actions, nonce, s.lock.owner.value, s.contenders[s.lock.owner.value].process)
  {
    var s := Run(INITIAL, actions).value;
    if LiveLock(s) {
      LiveLockWasTakenSince(actions, nonce, s.lock.owner.value);
    }
    if s.lock.owner.Some? && s.lock.owner.value < |s.contenders| {
      var o := s.lock.owner.value;
      if TakenSince(actions, nonce, o, s.contenders[o].process) {
        TakenSinceIsLive(actions, nonce, o);
      }
    }
  }

  /** No contender records itself as owner while another is between reading the old owner and removing it. */
  ghost predicate Undisturbed(s: State, a: Action) {
    a.Advance? && a.nonce < |s.contenders| && s.contenders[a.nonce].pc.Writing? ==>
      forall n :: 0 <= n < |s.contenders| && n != a.nonce ==> Target(s.contenders[n].pc).None?
  }

  ghost predicate UndisturbedRun(s: State, actions: seq<Action>)
    requires Run(s, actions).Some?
    decreases |actions|
  {
    actions == [] ||
    (Undisturbed(s, actions[0]) && UndisturbedRun(Apply(s, actions[0]), actions[1..]))
  }

  ghost predicate TargetsCurrent(s: State) {
    forall n: nat, owner: nat :: Aims(s, n, owner) ==>
      s.lock.Absent? || s.lock.owner.None? || s.lock.owner == Some(owner)
  }

  lemma KeepTargetsCurrent(s: State, a: Action)
    requires Inv(s) && TargetsCurrent(s) && Enabled(s, a) && Undisturbed(s, a)
    ensures TargetsCurrent(Apply(s, a))
  {
    var s' := Apply(s, a);
    forall n: nat, owner: nat | Aims(s', n, owner)
      ensures s'.lock.Absent? || s'.lock.owner.None? || s'.lock.owner == Some(owner)
    {
      assert Aims(s, n, owner) || (a == Advance(n) && s.contenders[n].pc.Reading?);
    }
  }

  /** When no acquisition falls into a reclaim, no lock of a live process is ever removed by another. */
  lemma {:induction false} UndisturbedReclaimsSpareLiveLocks(s: State, actions: seq<Action>, nonce: nat)
    requires Inv(s) && TargetsCurrent(s)
    requires Run(s, actions).Some? && UndisturbedRun(s, actions)
    requires Reclaims(Run(s, actions).value, nonce)
    ensures !LiveLock(Run(s, actions).value)
    decreases |actions|
  {
    if actions == [] {
      assert Aims(s, nonce, s.contenders[nonce].pc.owner);
    } else {
      KeepInv(s, actions[0]);
      KeepTargetsCurrent(s, actions[0]);
      UndisturbedReclaimsSpareLiveLocks(Apply(s, actions[0]), actions[1..], nonce);
    }
  }

  // ----- a reclaim that is disturbed -----

  const P0 := Process(1, 100)
  const P1 := Process(2, 200)
  const P2 := Process(3, 300)

  lemma {:induction false} RunAppend(s: State, a: seq<Action>, b: Action)
    requires Run(s, a).Some? && Enabled(Run(s, a).value, b)
    ensures Run(s, a + [b]) == Some(Apply(Run(s, a).value, b))
    decreases |a|
  {
    if a == [] {
      assert ([] + [b])[1..] == [];
      assert Run(Apply(s, b), []) == Some(Apply(s, b));
    } else {
      assert (a + [b])[1..] == a[1..] + [b];
      RunAppend(Apply(s, a[0]), a[1..], b);
    }
  }

  lemma Step(t: seq<Action>, s: State, a: Action) returns (t': seq<Action>, s': State)
    requires Run(INITIAL, t) == Some(s) && Enabled(s, a)
    ensures s' == Apply(s, a) && Run(INITIAL, t') == Some(s')
  {
    t', s' := t + [a], Apply(s, a);
    RunAppend(INITIAL, t, a);
  }

  lemma ThreeContenders() returns (t: seq<Action>, s: State)
    ensures Run(INITIAL, t) == Some(s)
    ensures s.alive == {P0, P1, P2} && s.lock.Absent? && s.file.None?
    ensures s.contenders
         == [Contender(P0, 7, Making, None), Contender(P1, 7, Making, None), Contender(P2, 7, Making, None)]
  {
    assert Run(INITIAL, []) == Some(INITIAL);
    t, s := Step([], INITIAL, Spawn(P0));
    t, s := Step(t, s, Spawn(P1));
    t, s := Step(t, s, Spawn(P2));
    t, s := Step(t, s, Enter(P0, 7));
    t, s := Step(t, s, Enter(P1, 7));
    t, s := Step(t, s, Enter(P2, 7));
  }

  /** The first contender holds the lock, the second has read it. */
  lemma ReadTheHolder() returns (t: seq<Action>, s: State)
    ensures Run(INITIAL, t) == Some(s)
    ensures s.alive == {P0, P1, P2} && |s.contenders| == 3
    ensures s.contenders[0] == Contender(P0, 7, Holding, None) && s.lock == Present(Some(0))
    ensures s.contenders[1] == Contender(P1, 7, Probing(0), None)
    ensures s.contenders[2] == Contender(P2, 7, Making, None)
  {
    t, s := ThreeContenders();
    t, s := Step(t, s, Advance(0)); // mkdir
    t, s := Step(t, s, Advance(0)); // owner.json
    t, s := Step(t, s, Advance(0)); // journal
    t, s := Step(t, s, Advance(1)); // mkdir: exists
    t, s := Step(t, s, Advance(1)); // owner.json read
  }

  /** One reclaimer is enough to lose a live lock: the owner it read releases and exits, another contender
      acquires the free lock, and the reclaimer is about to remove that. */
  lemma OneReclaimerRemovesALiveLock() returns (t: seq<Action>, s: State)
    ensures Run(INITIAL, t) == Some(s)
    ensures Reclaims(s, 1) && LiveLock(s) && s.lock.owner == Some(2)
    ensures forall n :: 0 <= n < |s.contenders| && n != 1 ==> Target(s.contenders[n].pc).None?
  {
    t, s := ReadTheHolder();
    t, s := Step(t, s, Release(0));
    t, s := Step(t, s, Exit(P0));
    t, s := Step(t, s, Advance(2)); // mkdir
    t, s := Step(t, s, Advance(2)); // owner.json
    t, s := Step(t, s, Advance(1)); // kill: no such process
  }
}
