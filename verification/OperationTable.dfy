/**
 The whole lease table in the place of the machine's operations: a row for every key, one clock, and one sweep for all
 rows in each claim that commits (src/lib/publish-operation.ts).
 */
module OperationTable {
  import opened Prelude
  import L = OperationLease
  import opened Publishing
  import opened PublishingSafety
  import opened PublishingTheorems
  import opened OperationRefinement

  /** `keys` are the keys that were ever claimed, in that order. */
  datatype Table = Table(now: nat, keys: seq<Key>, rows: map<Key, L.Table>)

  const EMPTY := Table(0, [], map[])

  function At(d: Table, k: Key): L.Table {
    if k in d.rows then d.rows[k] else L.EMPTY.(now := d.now)
  }

  /** Every claimed key has one row, and all rows have the clock of the table. */
  ghost predicate Valid(d: Table) {
    Listed(d) && forall k :: k in d.rows ==> d.rows[k].now == d.now
  }

  ghost predicate Listed(d: Table) {
    (forall k :: k in d.keys <==> k in d.rows) && forall i, j :: 0 <= i < j < |d.keys| ==> d.keys[i] != d.keys[j]
  }

  /** Time passes; something happens to one key; or the world around the table takes a step. */
  datatype Event = Pass(ms: nat) | Touch(key: Key, step: L.Action) | OfWorld(action: Action)

  /** What an event does to one row. */
  datatype Move = Move(key: Key, step: L.Action)

  /** The claim commits, and with it the sweep. */
  predicate Commits(d: Table, k: Key, step: L.Action) {
    step.Claim? && var reply := L.Claimed(At(d, k), step.fingerprint).1; reply.Granted? || reply.Replayed?
  }

  function Each(keys: seq<Key>, but: Option<Key>, step: L.Action): (moves: seq<Move>)
    ensures forall m :: m in moves ==> m.step == step && m.key in keys && Some(m.key) != but
    ensures forall k :: k in keys && Some(k) != but ==> Move(k, step) in moves
    ensures (forall i, j :: 0 <= i < j < |keys| ==> keys[i] != keys[j]) ==> Apart(moves)
  {
    if keys == [] then []
    else
      var rest := Each(keys[1..], but, step);
      if Some(keys[0]) == but then rest else [Move(keys[0], step)] + rest
  }

  predicate Apart(moves: seq<Move>) {
    forall i, j :: 0 <= i < j < |moves| ==> moves[i].key != moves[j].key
  }

  function Moves(d: Table, e: Event): seq<Move> {
    match e
    case Pass(ms) => Each(d.keys, None, L.Tick(ms))
    case Touch(k, step) => [Move(k, step)] + if Commits(d, k, step) then Each(d.keys, Some(k), L.Sweep) else []
    case OfWorld(_) => []
  }

  function Moved(d: Table, m: Move): Table
    requires L.Enabled(At(d, m.key), m.step)
  {
    d.(keys := if m.key in d.keys then d.keys else d.keys + [m.key],
       rows := d.rows[m.key := L.Apply(At(d, m.key), m.step)])
  }

  ghost predicate CanMove(d: Table, moves: seq<Move>) {
    Apart(moves) && forall m :: m in moves ==> L.Enabled(At(d, m.key), m.step)
  }

  lemma RestCanMove(d: Table, moves: seq<Move>)
    requires CanMove(d, moves) && moves != []
    ensures CanMove(Moved(d, moves[0]), moves[1..])
    ensures forall m :: m in moves[1..] ==> m in moves && At(Moved(d, moves[0]), m.key) == At(d, m.key)
  {
  }

  ghost function AllMoved(d: Table, moves: seq<Move>): Table
    requires CanMove(d, moves)
    decreases |moves|
  {
    if moves == [] then d else RestCanMove(d, moves); AllMoved(Moved(d, moves[0]), moves[1..])
  }

  // ----- events -----

  /** An event of the world leaves the rows alone; a key is only touched by its own requests and workers. */
  ghost predicate CanHappen(c: Config, d: Table, w: World, content: Key -> Contents, e: Event) {
    match e
    case OfWorld(a) => Enabled(c, w, a) && !MovesSomeRow(a)
    case Pass(_) => RowsHappen(c, d, w, content, Moves(d, e))
    case Touch(_, step) => !step.Tick? && !step.Sweep? && RowsHappen(c, d, w, content, Moves(d, e))
  }

  ghost predicate RowsHappen(c: Config, d: Table, w: World, content: Key -> Contents, moves: seq<Move>) {
    forall m :: m in moves ==>
      L.Enabled(At(d, m.key), m.step) && Happens(c, At(d, m.key), m.step, w, content(m.key))
  }

  predicate MovesSomeRow(a: Action) {
    a.Claim? || a.Work? || a.GiveUp? || a.Lapse? || a.Renew? || a.Retire? || a.Sweep?
  }

  lemma EventsAreApart(c: Config, d: Table, w: World, content: Key -> Contents, e: Event)
    requires Valid(d) && CanHappen(c, d, w, content, e)
    ensures CanMove(d, Moves(d, e))
  {
  }

  ghost function After(d: Table, e: Event): Table
    requires CanMove(d, Moves(d, e))
  {
    AllMoved(d, Moves(d, e)).(now := if e.Pass? then d.now + e.ms else d.now)
  }

  // ----- one clock, one sweep -----

  lemma {:induction false} UntouchedStays(d: Table, moves: seq<Move>, k: Key)
    requires CanMove(d, moves) && forall m :: m in moves ==> m.key != k
    ensures
      var d' := AllMoved(d, moves);
      d'.now == d.now && At(d', k) == At(d, k) && (k in d'.rows <==> k in d.rows)
    decreases |moves|
  {
    if moves != [] {
      assert moves[0].key != k;
      RestCanMove(d, moves);
      UntouchedStays(Moved(d, moves[0]), moves[1..], k);
    }
  }

  lemma {:induction false} MoveCounts(d: Table, moves: seq<Move>, m: Move)
    requires CanMove(d, moves) && m in moves
    ensures
      var d' := AllMoved(d, moves);
      d'.now == d.now && m.key in d'.rows && d'.rows[m.key] == L.Apply(At(d, m.key), m.step)
    decreases |moves|
  {
    RestCanMove(d, moves);
    if m == moves[0] {
      UntouchedStays(Moved(d, m), moves[1..], m.key);
    } else {
      MoveCounts(Moved(d, moves[0]), moves[1..], m);
    }
  }

  lemma MovedIsListed(d: Table, m: Move)
    requires Listed(d) && L.Enabled(At(d, m.key), m.step)
    ensures Listed(Moved(d, m))
  {
  }

  lemma {:induction false} MovedAreListed(d: Table, moves: seq<Move>)
    requires CanMove(d, moves) && Listed(d)
    ensures Listed(AllMoved(d, moves))
    decreases |moves|
  {
    if moves != [] {
      assert moves[0] in moves;
      MovedIsListed(d, moves[0]);
      RestCanMove(d, moves);
      MovedAreListed(Moved(d, moves[0]), moves[1..]);
    }
  }

  lemma StepTime(t: L.Table, a: L.Action)
    requires L.Enabled(t, a)
    ensures L.Apply(t, a).now == if a.Tick? then t.now + a.ms else t.now
  {
  }

  lemma OneClock(d: Table, e: Event, k: Key)
    requires Valid(d) && CanMove(d, Moves(d, e)) && (e.Touch? ==> !e.step.Tick?) && k in After(d, e).rows
    ensures After(d, e).rows[k].now == After(d, e).now
  {
    var moves := Moves(d, e);
    if e.Pass? && k in d.rows {
      MoveCounts(d, moves, Move(k, L.Tick(e.ms)));
    } else if m :| m in moves && m.key == k {
      MoveCounts(d, moves, m);
      StepTime(At(d, k), m.step);
    } else {
      UntouchedStays(d, moves, k);
    }
  }

  /** Whatever happens, there is one clock for all rows. */
  lemma KeepValid(c: Config, d: Table, w: World, content: Key -> Contents, e: Event)
    requires Valid(d) && CanHappen(c, d, w, content, e)
    ensures CanMove(d, Moves(d, e)) && Valid(After(d, e))
  {
    EventsAreApart(c, d, w, content, e);
    MovedAreListed(d, Moves(d, e));
    forall k | k in After(d, e).rows
      ensures After(d, e).rows[k].now == After(d, e).now
    {
      OneClock(d, e, k);
    }
  }

  lemma ClaimCanMove(d: Table, k: Key, f: nat)
    requires Valid(d)
    ensures CanMove(d, Moves(d, Touch(k, L.Claim(f))))
  {
  }

  lemma SweptRow(d: Table, moves: seq<Move>, k: Key)
    requires CanMove(d, moves) && Move(k, L.Sweep) in moves
    ensures At(AllMoved(d, moves), k) == L.Apply(At(d, k), L.Sweep)
  {
    MoveCounts(d, moves, Move(k, L.Sweep));
  }

  lemma NothingToSweep(now: nat)
    ensures L.Swept(L.EMPTY.(now := now)) == L.EMPTY.(now := now)
  {
  }

  /** A claim that commits turns every other row past its window into a tombstone; any other claim leaves them alone. */
  lemma ClaimSweepsEveryRow(d: Table, k: Key, f: nat, k': Key)
    requires Valid(d) && CanMove(d, Moves(d, Touch(k, L.Claim(f)))) && k' != k
    ensures
      var d' := AllMoved(d, Moves(d, Touch(k, L.Claim(f))));
      At(d', k') == if Commits(d, k, L.Claim(f)) then L.Swept(At(d, k')) else At(d, k')
  {
    var moves := Moves(d, Touch(k, L.Claim(f)));
    if Commits(d, k, L.Claim(f)) && k' in d.rows {
      assert Move(k', L.Sweep) in Each(d.keys, Some(k), L.Sweep);
      SweptRow(d, moves, k');
    } else {
      UntouchedStays(d, moves, k');
      NothingToSweep(d.now);
    }
  }

  // ----- the machine follows -----

  ghost predicate AllAgree(d: Table, w: World, content: Key -> Contents) {
    forall k :: Agrees(At(d, k), w, content(k), k)
  }

  /** The steps of the machine that the moves consist of. */
  ghost function StepsOf(d: Table, content: Key -> Contents, moves: seq<Move>): seq<Action>
    requires CanMove(d, moves)
    decreases |moves|
  {
    if moves == [] then []
    else
      RestCanMove(d, moves);
      Steps(At(d, moves[0].key), moves[0].step, content(moves[0].key), moves[0].key)
      + StepsOf(Moved(d, moves[0]), content, moves[1..])
  }

  /** A move of one row changes no other row and nothing of the client's program. */
  lemma OneRow(c: Config, t: L.Table, a: L.Action, w: World, content: Contents, k: Key)
    requires !c.legacy && Agrees(t, w, content, k) && L.Enabled(t, a) && Happens(c, t, a, w, content)
    ensures
      var w' := Run(c, w, Steps(t, a, content, k));
      && w'.Some? && Agrees(L.Apply(t, a), w'.value, content, k) && w'.value.pc == w.pc
      && forall k' :: k' != k ==> Entry(w'.value.server, k') == Entry(w.server, k')
  {
    TableStepIsMachineRun(c, t, a, w, content, k);
    StepsLeaveTheProgram(c, t, a, w, content, k);
    var s, s' := w.server, Run(c, w, Steps(t, a, content, k)).value.server;
    assert s'.operations - {k} == s.operations - {k};
    forall k' | k' != k
      ensures Entry(s', k') == Entry(s, k')
    {
      assert k' in s'.operations - {k} <==> k' in s.operations - {k};
    }
  }

  lemma OneMove(c: Config, d: Table, w: World, content: Key -> Contents, m: Move)
    requires !c.legacy && AllAgree(d, w, content)
    requires L.Enabled(At(d, m.key), m.step) && Happens(c, At(d, m.key), m.step, w, content(m.key))
    ensures
      var w' := Run(c, w, Steps(At(d, m.key), m.step, content(m.key), m.key));
      w'.Some? && AllAgree(Moved(d, m), w'.value, content) && w'.value.pc == w.pc
  {
    OneRow(c, At(d, m.key), m.step, w, content(m.key), m.key);
    var w' := Run(c, w, Steps(At(d, m.key), m.step, content(m.key), m.key)).value;
    forall k | k != m.key
      ensures Agrees(At(Moved(d, m), k), w', content(k), k)
    {
      assert Agrees(At(d, k), w, content(k), k);
    }
  }

  lemma StepsLeaveTheProgram(c: Config, t: L.Table, a: L.Action, w: World, content: Contents, k: Key)
    requires L.Enabled(t, a) && Run(c, w, Steps(t, a, content, k)).Some?
    ensures Run(c, w, Steps(t, a, content, k)).value.pc == w.pc
  {
    var steps := Steps(t, a, content, k);
    if steps != [] {
      assert steps == [steps[0]] && MovesSomeRow(steps[0]);
      OneStep(c, w, steps[0]);
    }
  }

  /** Moves after the first are those of the clock or of the sweep. */
  ghost predicate AllHappen(c: Config, d: Table, w: World, content: Key -> Contents, moves: seq<Move>) {
    && CanMove(d, moves)
    && (forall m :: m in moves ==> Happens(c, At(d, m.key), m.step, w, content(m.key)))
    && (forall i :: 0 < i < |moves| ==> moves[i].step.Tick? || moves[i].step.Sweep?)
  }

  lemma {:induction false} MovesAreMachineRun(c: Config, d: Table, w: World, content: Key -> Contents,
                                              moves: seq<Move>)
    requires !c.legacy && AllAgree(d, w, content) && AllHappen(c, d, w, content, moves)
    ensures
      var w' := Run(c, w, StepsOf(d, content, moves));
      w'.Some? && AllAgree(AllMoved(d, moves), w'.value, content)
    decreases |moves|
  {
    if moves == [] {
      assert Run(c, w, []) == Some(w);
    } else {
      var m, d1 := moves[0], Moved(d, moves[0]);
      assert m in moves;
      OneMove(c, d, w, content, m);
      var steps := Steps(At(d, m.key), m.step, content(m.key), m.key);
      var w1 := Run(c, w, steps).value;
      RestCanMove(d, moves);
      assert AllHappen(c, d1, w1, content, moves[1..]);
      MovesAreMachineRun(c, d1, w1, content, moves[1..]);
      RunAppend(c, w, steps, StepsOf(d1, content, moves[1..]));
    }
  }

  // ----- whole runs -----

  /** The table and the world after an event, and the steps of the machine that it consists of. */
  ghost function Machine(c: Config, d: Table, w: World, content: Key -> Contents, events: seq<Event>)
    : Option<(seq<Action>, Table)>
    requires Valid(d)
    decreases |events|
  {
    if events == [] then Some(([], d))
    else if !CanHappen(c, d, w, content, events[0]) then None
    else
      KeepValid(c, d, w, content, events[0]);
      var steps := if events[0].OfWorld? then [events[0].action] else StepsOf(d, content, Moves(d, events[0]));
      match Run(c, w, steps)
      case None => None
      case Some(w') =>
        match Machine(c, After(d, events[0]), w', content, events[1..])
        case None => None
        case Some((rest, d')) => Some((steps + rest, d'))
  }

  lemma OtherActionsLeaveRows(c: Config, d: Table, w: World, content: Key -> Contents, a: Action)
    requires !c.legacy && AllAgree(d, w, content) && Enabled(c, w, a) && !MovesSomeRow(a)
    ensures AllAgree(d, Apply(c, w, a), content)
  {
    assert Apply(c, w, a).server.operations == w.server.operations;
    forall k
      ensures Agrees(At(d, k), Apply(c, w, a), content(k), k)
    {
      assert Agrees(At(d, k), w, content(k), k);
    }
  }

  lemma ClockAgrees(d: Table, w: World, content: Key -> Contents, now: nat)
    requires AllAgree(d, w, content)
    ensures AllAgree(d.(now := now), w, content)
  {
    forall k
      ensures Agrees(At(d.(now := now), k), w, content(k), k)
    {
      assert Agrees(At(d, k), w, content(k), k);
    }
  }

  lemma EventIsMachineRun(c: Config, d: Table, w: World, content: Key -> Contents, e: Event)
    requires !c.legacy && Valid(d) && AllAgree(d, w, content) && CanHappen(c, d, w, content, e)
    ensures CanMove(d, Moves(d, e))
    ensures
      var w' := Run(c, w, if e.OfWorld? then [e.action] else StepsOf(d, content, Moves(d, e)));
      w'.Some? && AllAgree(After(d, e), w'.value, content)
  {
    EventsAreApart(c, d, w, content, e);
    if e.OfWorld? {
      OtherActionsLeaveRows(c, d, w, content, e.action);
      OneStep(c, w, e.action);
      ClockAgrees(d, Apply(c, w, e.action), content, d.now);
    } else {
      MovesAreMachineRun(c, d, w, content, Moves(d, e));
      var w' := Run(c, w, StepsOf(d, content, Moves(d, e))).value;
      ClockAgrees(AllMoved(d, Moves(d, e)), w', content, After(d, e).now);
    }
  }

  /** Every run of the table and the world around it is a run of the machine, which agrees with every row at its end. */
  lemma {:induction false} JointRunIsMachineRun(c: Config, d: Table, w: World, content: Key -> Contents,
                                                events: seq<Event>)
    requires !c.legacy && Valid(d) && AllAgree(d, w, content) && Machine(c, d, w, content, events).Some?
    ensures
      var (steps, d') := Machine(c, d, w, content, events).value;
      var w' := Run(c, w, steps);
      w'.Some? && AllAgree(d', w'.value, content)
    decreases |events|
  {
    if events == [] {
      assert Run(c, w, []) == Some(w);
    } else {
      var e := events[0];
      EventIsMachineRun(c, d, w, content, e);
      KeepValid(c, d, w, content, e);
      var steps := if e.OfWorld? then [e.action] else StepsOf(d, content, Moves(d, e));
      var w1 := Run(c, w, steps).value;
      JointRunIsMachineRun(c, After(d, e), w1, content, events[1..]);
      RunAppend(c, w, steps, Machine(c, After(d, e), w1, content, events[1..]).value.0);
    }
  }

  /** So at most one artifact is published with the lease table in place of the machine's operations, and every key
      takes effect at most once, workers that outlive their row's window included. */
  lemma LeaseTablePublishesAtMostOnce(c: Config, content: Key -> Contents, events: seq<Event>)
    requires Sound(c) && (forall k :: ContentsOf(content(k), k))
    requires Machine(c, EMPTY, NEW_WORLD, content, events).Some?
    ensures
      var (steps, d) := Machine(c, EMPTY, NEW_WORLD, content, events).value;
      var w := Run(c, NEW_WORLD, steps);
      && w.Some? && |w.value.server.published| <= 1
      && forall k :: |At(d, k).effects| <= 1
  {
    JointRunIsMachineRun(c, EMPTY, NEW_WORLD, content, events);
    var (steps, d) := Machine(c, EMPTY, NEW_WORLD, content, events).value;
    PublishesAtMostOnce(c, steps);
    forall k
      ensures |At(d, k).effects| <= 1
    {
      assert Agrees(At(d, k), Run(c, NEW_WORLD, steps).value, content(k), k);
    }
  }
}
