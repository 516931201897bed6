/** A row of the lease table implements an operation of the publication machine, effects included. */
module OperationRefinement {
  import opened Prelude
  import L = OperationLease
  import opened Publishing
  import opened PublishingSafety
  import opened PublishingTheorems

  /** What the fingerprints of one key stand for. */
  type Contents = nat -> Request

  ghost predicate ContentsOf(content: Contents, k: Key) {
    forall f :: !content(f).PutFile? && KeyOf(content(f)) == k
  }

  /** The row as the machine sees it. */
  function View(t: L.Table, content: Contents): Option<Operation> {
    match t.row
    case None => None
    case Some(row) =>
      var working := row.state.Running? && row.lease !in t.ended;
      if row.state.Expired? then Some(Expired)
      else if L.PastWindow(t) then Some(if working then Stale(content(row.fingerprint)) else Expired)
      else if row.state.Completed? then Some(Done(row.state.result))
      else if !working then Some(Released)
      else if row.leaseUntil > t.now then Some(Running(content(row.fingerprint)))
      else Some(Lapsed(content(row.fingerprint)))
  }

  function Entry(s: Server, k: Key): Option<Operation> {
    if k in s.operations then Some(s.operations[k]) else None
  }

  ghost predicate Agrees(t: L.Table, w: World, content: Contents, k: Key) {
    L.Inv(t) && ContentsOf(content, k) && Entry(w.server, k) == View(t, content)
  }

  /**
   What a step of the table means in the world around it: a granted request is on its way; a transaction that
   commits is the request's own; and the deployment keeps its promise about leases.
   */
  ghost predicate Happens(c: Config, t: L.Table, a: L.Action, w: World, content: Contents)
    requires L.Enabled(t, a)
  {
    && (a.Claim? && L.Claimed(t, a.fingerprint).1.Granted? ==>
          content(a.fingerprint) in w.late || w.outstanding == InFlight(content(a.fingerprint)))
    && (a.Record? && L.Holds(t, a.lease) ==>
          var r := content(t.row.value.fingerprint);
          CanWork(w.server, r) && a.result == NewId(w.server, r))
    && (View(L.Apply(t, a), content).Some? && View(L.Apply(t, a), content).value.Lapsed? && c.leased ==> !Live(w.pc))
  }

  /** The steps of the machine that a step of the table consists of: at most one. */
  function Steps(t: L.Table, a: L.Action, content: Contents, k: Key): seq<Action>
    requires L.Enabled(t, a)
  {
    var before, after := View(t, content), View(L.Apply(t, a), content);
    match a
    case Record(lease, _) => if L.Holds(t, lease) then [Work(k)] else []
    case Release(lease) => if L.Holds(t, lease) then [GiveUp(k)] else []
    case Claim(f) => if L.Claimed(t, f).1.Granted? then [Claim(content(f))] else []
    case Sweep => if before == after then [] else [Sweep(k)]
    case Tick(_) =>
      if before == after then [] else if after.value.Lapsed? then [Lapse(k)] else [Retire(k)]
    case Extend(_, _) =>
      if before == after then [] else if after.value.Lapsed? then [Lapse(k)] else [Renew(k)]
  }

  /** Nothing but the key's row differs. */
  ghost predicate OnlyRow(s: Server, s': Server, k: Key) {
    s'.(operations := s.operations) == s && s'.operations - {k} == s.operations - {k}
  }

  lemma OneStep(c: Config, w: World, a: Action)
    requires Enabled(c, w, a)
    ensures Run(c, w, [a]) == Some(Apply(c, w, a))
  {
    var w' := Apply(c, w, a);
    assert [a][1..] == [] && Run(c, w', []) == Some(w');
  }

  /** The table takes effect. */
  lemma RecordIsWork(c: Config, t: L.Table, lease: nat, result: nat, w: World, content: Contents, k: Key)
    requires Agrees(t, w, content, k) && L.Enabled(t, L.Record(lease, result)) && L.Holds(t, lease)
    requires Happens(c, t, L.Record(lease, result), w, content)
    ensures Enabled(c, w, Work(k))
    ensures
      var t', w' := L.Recorded(t, lease, result), Apply(c, w, Work(k));
      && Agrees(t', w', content, k) && |t'.effects| == 1
      && OnlyRow(Worked(c, w.server, content(t.row.value.fingerprint)), w'.server, k)
  {
    L.KeepInv(t, L.Record(lease, result));
  }

  /** The machine follows a step of the table without effect. */
  ghost predicate Follows(c: Config, t: L.Table, a: L.Action, w: World, content: Contents, k: Key)
    requires L.Enabled(t, a)
  {
    var steps := Steps(t, a, content, k);
    if steps == [] then Agrees(L.Apply(t, a), w, content, k)
    else
      && Enabled(c, w, steps[0])
      && Agrees(L.Apply(t, a), Apply(c, w, steps[0]), content, k)
      && OnlyRow(w.server, Apply(c, w, steps[0]).server, k)
  }

  lemma TimePasses(c: Config, t: L.Table, a: L.Action, w: World, content: Contents, k: Key)
    requires !c.legacy && Agrees(t, w, content, k) && L.Enabled(t, a) && Happens(c, t, a, w, content) && a.Tick?
    ensures Follows(c, t, a, w, content, k)
  {
    L.KeepInv(t, a);
  }

  lemma LeaseIsExtended(c: Config, t: L.Table, a: L.Action, w: World, content: Contents, k: Key)
    requires !c.legacy && Agrees(t, w, content, k) && L.Enabled(t, a) && Happens(c, t, a, w, content) && a.Extend?
    ensures Follows(c, t, a, w, content, k)
  {
    L.KeepInv(t, a);
  }

  lemma TableIsClaimed(c: Config, t: L.Table, a: L.Action, w: World, content: Contents, k: Key)
    requires !c.legacy && Agrees(t, w, content, k) && L.Enabled(t, a) && Happens(c, t, a, w, content)
    requires a.Claim? || a.Sweep?
    ensures Follows(c, t, a, w, content, k)
  {
    L.KeepInv(t, a);
  }

  lemma WorkerEnds(c: Config, t: L.Table, a: L.Action, w: World, content: Contents, k: Key)
    requires !c.legacy && Agrees(t, w, content, k) && L.Enabled(t, a) && Happens(c, t, a, w, content)
    requires a.Release? || (a.Record? && !L.Holds(t, a.lease))
    ensures Follows(c, t, a, w, content, k)
  {
    L.KeepInv(t, a);
  }

  /** The table does not take effect, and the machine does not either. */
  lemma QuietStep(c: Config, t: L.Table, a: L.Action, w: World, content: Contents, k: Key)
    requires !c.legacy && Agrees(t, w, content, k) && L.Enabled(t, a) && Happens(c, t, a, w, content)
    requires !(a.Record? && L.Holds(t, a.lease))
    ensures L.Apply(t, a).effects == t.effects && Follows(c, t, a, w, content, k)
  {
    if a.Tick? {
      TimePasses(c, t, a, w, content, k);
    } else if a.Extend? {
      LeaseIsExtended(c, t, a, w, content, k);
    } else if a.Claim? || a.Sweep? {
      TableIsClaimed(c, t, a, w, content, k);
    } else {
      WorkerEnds(c, t, a, w, content, k);
    }
  }

  /**
   Every step of the table, at any moment of any run, is a run of the machine on that key: it ends in a world that
   agrees with the table again; the machine publishes, or opens a session, exactly when the table takes effect; and
   nothing else of the server changes.
   */
  lemma TableStepIsMachineRun(c: Config, t: L.Table, a: L.Action, w: World, content: Contents, k: Key)
    requires !c.legacy && Agrees(t, w, content, k) && L.Enabled(t, a) && Happens(c, t, a, w, content)
    ensures Run(c, w, Steps(t, a, content, k)).Some?
    ensures
      var t', w' := L.Apply(t, a), Run(c, w, Steps(t, a, content, k)).value;
      && Agrees(t', w', content, k)
      && (if t'.effects == t.effects then OnlyRow(w.server, w'.server, k)
          else
            && |t'.effects| == |t.effects| + 1
            && var r := content(t.row.value.fingerprint);
               CanWork(w.server, r) && OnlyRow(Worked(c, w.server, r), w'.server, k))
  {
    var steps := Steps(t, a, content, k);
    if a.Record? && L.Holds(t, a.lease) {
      RecordIsWork(c, t, a.lease, a.result, w, content, k);
    } else {
      QuietStep(c, t, a, w, content, k);
    }
    if steps == [] {
      assert Run(c, w, []) == Some(w);
    } else {
      assert steps == [steps[0]];
      OneStep(c, w, steps[0]);
    }
  }

  /** The status route answers what the machine's status says, also for artifacts that were deleted. */
  lemma StatusesAgree(t: L.Table, c: Config, w: World, content: Contents, k: Key)
    requires Agrees(t, w, content, k) && !c.legacy
    ensures
      var answered := OperationStatus(c, w.server, k);
      match L.StatusOf(t, w.server.deleted)
      case NotFound => answered == NotFound
      case StatusTooOld => answered == TooOld
      case StatusCompleted(result) => answered == Completed(result)
      case StatusGone => answered == Gone
      case StatusRunning => answered == StillRunning
      case Retryable => answered == Status.Retryable
  {
  }
}
