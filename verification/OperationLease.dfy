/**
 One row of the server's table of publication operations (src/lib/publish-operation.ts):
 claims under a time-limited lease, results recorded in the publishing transaction, and
 expired rows kept as tombstones. Workers are arbitrarily slow: any lease ever handed out
 may try to record a result at any moment until its worker ends.
 */
module OperationLease {
  import opened Prelude

  const LEASE_MS: nat := 5 * 60 * 1000
  const RETENTION_MS: nat := 7 * 24 * 60 * 60 * 1000

  datatype State = Running | Completed(result: nat) | Expired

  /** Leases are numbered in the order in which they are handed out. */
  datatype Row = Row(state: State, fingerprint: nat, lease: nat, leaseUntil: nat, expiresAt: nat)

  /** A publishing transaction that committed. */
  datatype Effect = Effect(lease: nat, fingerprint: nat, result: nat)

  /** `claims[l]` is the request fingerprint that obtained lease `l`; `ended` are the leases whose worker is done. */
  datatype Table = Table(row: Option<Row>, now: nat, claims: seq<nat>, ended: set<nat>, effects: seq<Effect>)

  datatype Reply = Granted(lease: nat) | Replayed(result: nat) | Conflict | InProgress | TooOld

  datatype Status = NotFound | StatusTooOld | StatusCompleted(result: nat) | StatusGone | StatusRunning | Retryable

  /** `Sweep` is the claim of another key, granted or replayed. A release is the last act of a worker without result. */
  datatype Action =
    | Tick(ms: nat)
    | Claim(fingerprint: nat)
    | Sweep
    | Record(lease: nat, result: nat)
    | Release(lease: nat)
    | Extend(lease: nat, until: nat)

  predicate PastWindow(t: Table) {
    t.row.Some? && t.row.value.expiresAt < t.now
  }

  function Swept(t: Table): Table {
    if PastWindow(t) then t.(row := Some(t.row.value.(state := Expired))) else t
  }

  function Grant(t: Table, fingerprint: nat, expiresAt: nat): (Table, Reply) {
    var lease := |t.claims|;
    (t.(row := Some(Row(Running, fingerprint, lease, t.now + LEASE_MS, expiresAt)), claims := t.claims + [fingerprint]),
     Granted(lease))
  }

  /** The claiming transaction of one request. A refusal is thrown, which rolls the sweep back. */
  function Claimed(before: Table, fingerprint: nat): (Table, Reply) {
    var t := Swept(before);
    if t.row.None? then Grant(t, fingerprint, t.now + RETENTION_MS)
    else
      var row := t.row.value;
      if row.state.Expired? then (before, TooOld)
      else if row.fingerprint != fingerprint then (before, Conflict)
      else if row.state.Completed? then (t, Replayed(row.state.result))
      else if row.leaseUntil > t.now then (before, InProgress)
      else Grant(t, fingerprint, row.expiresAt)
  }

  predicate Holds(t: Table, lease: nat) {
    t.row.Some? && t.row.value.state.Running? && t.row.value.lease == lease
  }

  /** The publishing transaction of the worker with `lease`: it commits together with the row's completion, or is
      rolled back when the row no longer runs under that lease. The window of the row is not looked at. */
  function Recorded(t: Table, lease: nat, result: nat): Table
    requires lease < |t.claims|
  {
    if Holds(t, lease) then
      t.(row := Some(t.row.value.(state := Completed(result))),
         effects := t.effects + [Effect(lease, t.claims[lease], result)])
    else t
  }

  function Relet(t: Table, lease: nat, until: nat): Table {
    if Holds(t, lease) then t.(row := Some(t.row.value.(leaseUntil := until))) else t
  }

  /** The status route; `deleted` are the results whose artifact is gone. */
  function StatusOf(t: Table, deleted: set<nat>): Status {
    match t.row
    case None => NotFound
    case Some(row) =>
      if row.expiresAt < t.now then StatusTooOld
      else match row.state
        case Completed(result) => if result in deleted then StatusGone else StatusCompleted(result)
        case _ => if row.leaseUntil > t.now then StatusRunning else Retryable
  }

  predicate AtWork(t: Table, lease: nat) {
    lease < |t.claims| && lease !in t.ended
  }

  predicate Enabled(t: Table, a: Action) {
    match a
    case Record(lease, _) => AtWork(t, lease)
    case Release(lease) => AtWork(t, lease)
    case Extend(lease, _) => AtWork(t, lease)
    case _ => true
  }

  function Apply(t: Table, a: Action): Table
    requires Enabled(t, a)
  {
    match a
    case Tick(ms) => t.(now := t.now + ms)
    case Claim(fingerprint) => Claimed(t, fingerprint).0
    case Sweep => Swept(t)
    case Record(lease, result) => Recorded(t, lease, result)
    case Release(lease) => Relet(t, lease, 0).(ended := t.ended + {lease})
    case Extend(lease, until) => Relet(t, lease, until)
  }

  function Run(t: Table, actions: seq<Action>): Option<Table>
    decreases |actions|
  {
    if actions == [] then Some(t)
    else if Enabled(t, actions[0]) then Run(Apply(t, actions[0]), actions[1..])
    else None
  }

  const EMPTY := Table(None, 0, [], {}, [])

  // ----- guarantees -----

  ghost predicate Inv(t: Table) {
    && |t.effects| <= 1
    && (forall l :: l in t.ended ==> l < |t.claims|)
    && (t.row.None? ==> t.claims == [] && t.effects == [])
    && (t.row.Some? ==>
          var row := t.row.value;
          && row.lease == |t.claims| - 1
          && (forall l :: 0 <= l < |t.claims| ==> t.claims[l] == row.fingerprint)
          && (row.lease in t.ended && row.state.Running? ==> row.leaseUntil == 0)
          && (row.state.Running? ==> t.effects == [])
          && (row.state.Expired? ==> row.expiresAt < t.now)
          && (row.state.Completed? ==> t.effects != [] && t.effects[0].result == row.state.result)
          && (t.effects != [] ==> t.effects[0].fingerprint == row.fingerprint))
  }

  lemma KeepInv(t: Table, a: Action)
    requires Inv(t) && Enabled(t, a)
    ensures Inv(Apply(t, a))
    ensures t.effects <= Apply(t, a).effects
  {
  }

  lemma {:induction false} RunKeepsInv(t: Table, actions: seq<Action>)
    requires Inv(t) && Run(t, actions).Some?
    ensures Inv(Run(t, actions).value)
    ensures t.effects <= Run(t, actions).value.effects
    decreases |actions|
  {
    if actions != [] {
      KeepInv(t, actions[0]);
      RunKeepsInv(Apply(t, actions[0]), actions[1..]);
    }
  }

  /** Over every interleaving of claims, slow workers, releases and time: one key takes effect at most once,
      and only for the content that claimed it first. */
  lemma KeyTakesEffectAtMostOnce(actions: seq<Action>)
    requires Run(EMPTY, actions).Some?
    ensures
      var t := Run(EMPTY, actions).value;
      && |t.effects| <= 1
      && (t.effects != [] ==> t.claims != [] && t.effects[0].fingerprint == t.claims[0])
  {
    RunKeepsInv(EMPTY, actions);
  }

  /** What a status answer says about the past, exactly: within the retention window, `completed` or `gone` is
      answered if and only if the key took effect, according to whether that effect's artifact exists. */
  lemma StatusTellsTheTruth(actions: seq<Action>, deleted: set<nat>)
    requires Run(EMPTY, actions).Some?
    ensures
      var t := Run(EMPTY, actions).value;
      var status := StatusOf(t, deleted);
      !status.StatusTooOld? ==>
        && (t.effects != [] && t.effects[0].result !in deleted <==> status.StatusCompleted?)
        && (t.effects != [] && t.effects[0].result in deleted <==> status.StatusGone?)
        && (status.StatusCompleted? ==> t.effects[0].result == status.result)
  {
    RunKeepsInv(EMPTY, actions);
  }

  /** A replayed answer is the answer of the transaction that took effect. */
  lemma ReplayIsTheEffect(actions: seq<Action>, fingerprint: nat)
    requires Run(EMPTY, actions).Some?
    requires Claimed(Run(EMPTY, actions).value, fingerprint).1.Replayed?
    ensures
      var t := Run(EMPTY, actions).value;
      && |t.effects| == 1
      && t.effects[0].result == Claimed(t, fingerprint).1.result
      && t.effects[0].fingerprint == fingerprint
  {
    RunKeepsInv(EMPTY, actions);
  }

  /** A lease that has been followed by another is fenced for good: its transaction never commits. */
  lemma {:induction false} SupersededLeaseIsFenced(t: Table, actions: seq<Action>, lease: nat, result: nat)
    requires Inv(t) && lease < |t.claims| - 1
    requires Run(t, actions).Some?
    ensures
      var t' := Run(t, actions).value;
      lease < |t'.claims| && Recorded(t', lease, result) == t'
    decreases |actions|
  {
    if actions != [] {
      KeepInv(t, actions[0]);
      SupersededLeaseIsFenced(Apply(t, actions[0]), actions[1..], lease, result);
    }
  }

  /** A second worker gets a lease only after the first one's has run out or was given back. */
  lemma OneLiveLease(t: Table, fingerprint: nat)
    requires Inv(t) && Claimed(t, fingerprint).1.Granted?
    ensures t.row.None? || (t.row.value.state.Running? && t.row.value.leaseUntil <= t.now)
    ensures t.effects == []
  {
  }

  /** A worker can take effect after the window of its row has ended, even after the key was refused for that reason,
      as long as nothing has swept the table. */
  lemma StaleWorkerTakesEffect() returns (actions: seq<Action>)
    ensures Run(EMPTY, actions).Some? && |actions| > 2
    ensures Run(EMPTY, actions[..2]).Some? && Claimed(Run(EMPTY, actions[..2]).value, 0).1.TooOld?
    ensures actions[2] == Claim(0)
    ensures
      var t := Run(EMPTY, actions).value;
      PastWindow(t) && |t.effects| == 1 && StatusOf(t, {}) == StatusTooOld
  {
    actions := [Claim(0), Tick(RETENTION_MS + 1), Claim(0), Record(0, 5)];
    var t1 := Apply(EMPTY, actions[0]);
    var t2 := Apply(t1, actions[1]);
    assert Claimed(t2, 0) == (t2, TooOld);
    assert actions[..2][1..] == [actions[1]] && [actions[1]][1..] == [];
    assert Run(t2, []) == Some(t2) && Run(t1, [actions[1]]) == Some(t2);
    var t3 := Apply(t2, actions[3]);
    assert Run(t3, []) == Some(t3) && Run(t2, actions[3..]) == Some(t3);
    assert actions[2..][1..] == actions[3..] && Run(t2, actions[2..]) == Some(t3);
    assert actions[1..][1..] == actions[2..] && Run(t1, actions[1..]) == Some(t3);
  }
}
