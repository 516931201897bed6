/**
 The lifecycle of the remote MCP connection (class Remote in cli/src/mcp.ts). Each action below is a piece of
 `connect` or `close` that runs without interruption, between two awaits; calls interleave in any order.
 */
module RemoteLifecycle {
  import opened Prelude

  /** Where the body of one connection attempt stands: in the handshake, closing its client after a failure, or
      done, with its `finally` callback still to run. */
  datatype Phase = Handshake | CleaningUp | Kept | Lost

  /** Where one call of `close` stands: waiting for the attempt that was pending, closing the client, or done. */
  datatype Closer = Waiting(attempt: Option<nat>) | Shutting(client: nat) | Finished

  /** The fields of the object, then the attempts and closing calls still running, and the clients made and closed. */
  datatype State = State(
    client: Option<nat>,
    pending: Option<nat>,
    connecting: Option<nat>,
    closed: bool,
    attempts: map<nat, Phase>,
    closers: seq<Closer>,
    made: nat,
    shut: set<nat>)

  const FRESH := State(None, None, None, false, map[], [], 0, {})

  datatype Action =
    | Connect
    | HandshakeSucceeds(id: nat)
    | HandshakeFails(id: nat)
    | CleanedUp(id: nat)
    | Settle(id: nat)
    | Close
    | CloseProceeds(call: nat)
    | CloseFinishes(call: nat)

  predicate Enabled(s: State, a: Action) {
    match a
    case Connect => true
    case HandshakeSucceeds(id) => id in s.attempts && s.attempts[id].Handshake?
    case HandshakeFails(id) => id in s.attempts && s.attempts[id].Handshake?
    case CleanedUp(id) => id in s.attempts && s.attempts[id].CleaningUp?
    case Settle(id) => id in s.attempts && (s.attempts[id].Kept? || s.attempts[id].Lost?)
    case Close => true
    case CloseProceeds(k) =>
      k < |s.closers| && s.closers[k].Waiting?
      && (s.closers[k].attempt.None? || s.closers[k].attempt.value !in s.attempts)
    case CloseFinishes(k) => k < |s.closers| && s.closers[k].Shutting?
  }

  datatype Reply = Connected(client: nat) | Refused | Awaits(attempt: nat)

  function ConnectStep(s: State): (State, Reply) {
    if s.client.Some? then (s, Connected(s.client.value))
    else if s.closed then (s, Refused)
    else if s.pending.Some? then (s, Awaits(s.pending.value))
    else
      (s.(made := s.made + 1, attempts := s.attempts[s.made := Handshake],
          connecting := Some(s.made), pending := Some(s.made)),
       Awaits(s.made))
  }

  function SuccessStep(s: State, id: nat): State {
    if s.closed then s.(attempts := s.attempts[id := CleaningUp])
    else
      s.(attempts := s.attempts[id := Kept], connecting := if s.connecting == Some(id) then None else s.connecting,
         client := Some(id))
  }

  function CleanedStep(s: State, id: nat): State {
    s.(attempts := s.attempts[id := Lost], connecting := if s.connecting == Some(id) then None else s.connecting,
       shut := s.shut + {id})
  }

  function ProceedStep(s: State, k: nat): State
    requires k < |s.closers|
  {
    if s.client.Some? then s.(closers := s.closers[k := Shutting(s.client.value)])
    else s.(closers := s.closers[k := Finished])
  }

  function Apply(s: State, a: Action): State
    requires Enabled(s, a)
  {
    match a
    case Connect => ConnectStep(s).0
    case HandshakeSucceeds(id) => SuccessStep(s, id)
    case HandshakeFails(id) => s.(attempts := s.attempts[id := CleaningUp])
    case CleanedUp(id) => CleanedStep(s, id)
    case Settle(id) => s.(attempts := s.attempts - {id}, pending := None)
    case Close => s.(closed := true, closers := s.closers + [Waiting(s.pending)])
    case CloseProceeds(k) => ProceedStep(s, k)
    case CloseFinishes(k) =>
      s.(client := None, closers := s.closers[k := Finished], shut := s.shut + {s.closers[k].client})
  }

  ghost predicate Run(states: seq<State>, actions: seq<Action>) {
    && |states| == |actions| + 1
    && forall k :: 0 <= k < |actions| ==>
         Enabled(states[k], actions[k]) && states[k + 1] == Apply(states[k], actions[k])
  }

  // ----- the invariant -----

  /** Only the pending attempt is running, and its client is the retained one exactly when it was kept. */
  ghost predicate OneAttempt(s: State) {
    && s.attempts.Keys == (if s.pending.Some? then {s.pending.value} else {})
    && (s.pending.Some? ==>
          var id := s.pending.value;
          && id < s.made
          && (s.attempts[id].Handshake? || s.attempts[id].CleaningUp? ==>
                s.connecting == Some(id) && s.client.None? && id !in s.shut)
          && (s.attempts[id].Kept? ==> s.client == Some(id))
          && (s.attempts[id].Lost? ==> s.client.None?))
  }

  /** Every client is the retained one, or closed, or in the hands of its attempt. */
  ghost predicate Accounted(s: State) {
    && (s.client.Some? ==> s.client.value < s.made && s.client.value !in s.shut)
    && (forall id :: id in s.shut ==> id < s.made)
    && forall id: nat :: id < s.made ==>
         || id in s.shut || s.client == Some(id)
         || (id in s.attempts && (s.attempts[id].Handshake? || s.attempts[id].CleaningUp?))
  }

  ghost predicate CloserInOrder(s: State, c: Closer) {
    && s.closed
    && match c
       case Waiting(None) => s.attempts.Keys == {}
       case Waiting(Some(id)) => s.attempts.Keys <= {id}
       case Shutting(id) =>
         && s.attempts.Keys == {} && id < s.made
         && (s.client == Some(id) || (s.client.None? && id in s.shut))
       case Finished => s.attempts.Keys == {} && s.client.None?
  }

  ghost predicate Inv(s: State) {
    && OneAttempt(s) && Accounted(s)
    && forall k :: 0 <= k < |s.closers| ==> CloserInOrder(s, s.closers[k])
  }

  lemma KeepInv(s: State, a: Action)
    requires Inv(s) && Enabled(s, a)
    ensures Inv(Apply(s, a))
  {
  }

  lemma {:induction false} RunKeepsInv(states: seq<State>, actions: seq<Action>, k: nat)
    requires Run(states, actions) && states[0] == FRESH && k <= |actions|
    ensures Inv(states[k])
  {
    if k > 0 {
      RunKeepsInv(states, actions, k - 1);
      assert Enabled(states[k - 1], actions[k - 1]) && states[k] == Apply(states[k - 1], actions[k - 1]);
      KeepInv(states[k - 1], actions[k - 1]);
    }
  }

  // ----- what holds in every run -----

  /** The clients whose handshake is in flight. */
  function Handshakes(s: State): set<nat> {
    set id | id in s.attempts && s.attempts[id].Handshake?
  }

  /** In every interleaving, at most one handshake is in flight, and every client ever made is the retained one,
      or closed, or still in the hands of its attempt. */
  lemma NoClientIsLost(states: seq<State>, actions: seq<Action>, k: nat)
    requires Run(states, actions) && states[0] == FRESH && k <= |actions|
    ensures |Handshakes(states[k])| <= 1
    ensures forall id: nat :: id < states[k].made && id !in states[k].shut && id !in states[k].attempts ==>
      states[k].client == Some(id)
    ensures states[k].client.Some? ==> states[k].client.value !in states[k].shut
  {
    RunKeepsInv(states, actions, k);
    var s := states[k];
    if s.pending.Some? {
      assert Handshakes(s) <= {s.pending.value};
      if Handshakes(s) != {} {
        assert Handshakes(s) == {s.pending.value};
      }
    }
  }

  /** One call of `close` has finished. */
  predicate Ended(s: State) {
    exists k :: 0 <= k < |s.closers| && s.closers[k].Finished?
  }

  lemma EndedStays(s: State, a: Action)
    requires Inv(s) && Ended(s) && Enabled(s, a)
    ensures Ended(Apply(s, a)) && Apply(s, a).made == s.made
  {
    var k :| 0 <= k < |s.closers| && s.closers[k].Finished?;
    assert CloserInOrder(s, s.closers[k]);
    assert Apply(s, a).closers[k].Finished?;
  }

  /** Once a call of `close` has finished, in every later state nothing is retained and nothing runs, every client ever
      made is closed, and every call of `connect` is refused. */
  lemma {:induction false} NothingAfterClose(states: seq<State>, actions: seq<Action>, j: nat, k: nat)
    requires Run(states, actions) && states[0] == FRESH && j <= k <= |actions| && Ended(states[j])
    ensures Ended(states[k]) && states[k].made == states[j].made
    ensures states[k].client == None && states[k].attempts == map[] && states[k].pending == None
    ensures forall id: nat :: id < states[k].made ==> id in states[k].shut
    ensures ConnectStep(states[k]) == (states[k], Refused)
  {
    RunKeepsInv(states, actions, k);
    if j < k {
      NothingAfterClose(states, actions, j, k - 1);
      RunKeepsInv(states, actions, k - 1);
      assert Enabled(states[k - 1], actions[k - 1]) && states[k] == Apply(states[k - 1], actions[k - 1]);
      EndedStays(states[k - 1], actions[k - 1]);
    }
    var c :| 0 <= c < |states[k].closers| && states[k].closers[c].Finished?;
    assert CloserInOrder(states[k], states[k].closers[c]);
  }

  // ----- closing comes to an end -----

  function PhaseWork(p: Phase): nat {
    match p
    case Handshake => 3
    case CleaningUp => 2
    case _ => 1
  }

  function CloserWork(c: Closer): nat {
    match c
    case Waiting(_) => 2
    case Shutting(_) => 1
    case Finished => 0
  }

  function CloserWorkAll(closers: seq<Closer>): nat {
    if closers == [] then 0 else CloserWorkAll(closers[..|closers| - 1]) + CloserWork(closers[|closers| - 1])
  }

  /** How many steps are left until nothing runs. */
  function Work(s: State): nat {
    (if s.pending.Some? && s.pending.value in s.attempts then PhaseWork(s.attempts[s.pending.value]) else 0)
    + CloserWorkAll(s.closers)
  }

  predicate Internal(a: Action) {
    !a.Connect? && !a.Close?
  }

  lemma {:induction false} CloserWorkUpdate(closers: seq<Closer>, k: nat, c: Closer)
    requires k < |closers|
    ensures CloserWorkAll(closers[k := c]) == CloserWorkAll(closers) - CloserWork(closers[k]) + CloserWork(c)
  {
    var last := |closers| - 1;
    if k == last {
      assert closers[k := c][..last] == closers[..last];
    } else {
      assert closers[k := c][..last] == closers[..last][k := c];
      CloserWorkUpdate(closers[..last], k, c);
    }
  }

  /** Every step that is not a new call brings the end nearer. */
  lemma InternalStepsEnd(s: State, a: Action)
    requires Inv(s) && Enabled(s, a) && Internal(a)
    ensures Work(Apply(s, a)) < Work(s)
  {
    match a
    case CloseProceeds(k) =>
      assert s.closers[k].Waiting?;
      CloserWorkUpdate(s.closers, k, Apply(s, a).closers[k]);
    case CloseFinishes(k) =>
      CloserWorkUpdate(s.closers, k, Finished);
    case _ =>
  }

  /** Until nothing runs and every call of `close` has finished, some step can be taken. */
  lemma SomeStepIsPossible(s: State)
    requires Inv(s)
    requires s.attempts != map[] || exists k :: 0 <= k < |s.closers| && !s.closers[k].Finished?
    ensures exists a :: Enabled(s, a) && Internal(a)
  {
    if s.attempts != map[] {
      var id := s.pending.value;
      assert s.attempts[id].Handshake? ==> Enabled(s, HandshakeFails(id));
      assert s.attempts[id].CleaningUp? ==> Enabled(s, CleanedUp(id));
      assert s.attempts[id].Kept? || s.attempts[id].Lost? ==> Enabled(s, Settle(id));
      assert Internal(HandshakeFails(id)) && Internal(CleanedUp(id)) && Internal(Settle(id));
    } else {
      var k: nat :| k < |s.closers| && !s.closers[k].Finished?;
      assert s.closers[k].Waiting? ==> Enabled(s, CloseProceeds(k));
      assert s.closers[k].Shutting? ==> Enabled(s, CloseFinishes(k));
      assert Internal(CloseProceeds(k)) && Internal(CloseFinishes(k));
    }
  }

  // ----- the object -----

  lemma RunOneMore(states: seq<State>, actions: seq<Action>, a: Action)
    requires Run(states, actions) && Enabled(states[|actions|], a)
    ensures Run(states + [Apply(states[|actions|], a)], actions + [a])
  {
  }

  /** Of what is tried one after the other, what can happen. */
  function Possible(s: State, actions: seq<Action>): seq<Action>
    decreases |actions|
  {
    if actions == [] then []
    else if Enabled(s, actions[0]) then [actions[0]] + Possible(Apply(s, actions[0]), actions[1..])
    else Possible(s, actions[1..])
  }

  /** Every client is retained, closed or in the hands of the only attempt; and once a `close` has finished, every one
      is closed and none can be had. */
  ghost predicate NothingLeaks(s: State) {
    && |Handshakes(s)| <= 1
    && (forall id: nat :: id < s.made ==> id in s.shut || s.client == Some(id) || s.attempts.Keys == {id})
    && (s.client.Some? ==> s.client.value !in s.shut)
    && (Ended(s) ==> (forall id: nat :: id < s.made ==> id in s.shut) && ConnectStep(s) == (s, Refused))
  }

  class Remote {
    var client: Option<nat>
    var pending: Option<nat>
    var connecting: Option<nat>
    var closed: bool
    /** The suspended bodies of `connect` and `close`, and the clients made and closed. */
    var attempts: map<nat, Phase>
    var closers: seq<Closer>
    var made: nat
    var shut: set<nat>
    /** The pieces run so far and the states they led through. */
    ghost var trail: seq<Action>
    ghost var states: seq<State>

    function Current(): State
      reads this
    {
      State(client, pending, connecting, closed, attempts, closers, made, shut)
    }

    /** The fields are the end of a run of the machine. */
    ghost predicate Linked()
      reads this
    {
      Run(states, trail) && states[0] == FRESH && states[|trail|] == Current()
    }

    constructor ()
      ensures Linked() && trail == [] && Current() == FRESH
    {
      client, pending, connecting, closed, attempts, closers, made, shut := None, None, None, false, map[], [], 0, {};
      trail, states := [], [FRESH];
    }

    /** A caller gets a client that works, waits for the only attempt, or is refused because of a `close`. */
    method Connect() returns (reply: Reply)
      requires Linked()
      modifies this
      ensures Linked() && trail == old(trail) + [Action.Connect] && states == old(states) + [Current()]
      ensures reply.Connected? ==> client == Some(reply.client) && reply.client !in shut && made == old(made)
      ensures reply.Refused? ==> closed && client == None && made == old(made)
      ensures reply.Awaits? ==> attempts.Keys == {reply.attempt} && reply.attempt < made
      ensures made > old(made) ==> !closed && old(attempts) == map[] && reply == Awaits(old(made))
    {
      RunKeepsInv(states, trail, |trail|);
      KeepInv(Current(), Action.Connect);
      RunOneMore(states, trail, Action.Connect);
      reply := Begin();
      states, trail := states + [Current()], trail + [Action.Connect];
    }

    method Begin() returns (reply: Reply)
      modifies this`made, this`attempts, this`connecting, this`pending
      ensures (Current(), reply) == ConnectStep(old(Current()))
    {
      if client.Some? {
        return Connected(client.value);
      }
      if closed {
        return Refused;
      }
      if pending == None {
        var id := made;
        made, attempts, connecting, pending := made + 1, attempts[id := Handshake], Some(id), Some(id);
      }
      return Awaits(pending.value);
    }

    /** The handshake of an attempt ends. A client that arrives after `close` is not kept. */
    method Resume(id: nat, succeeds: bool)
      requires id in attempts && attempts[id].Handshake?
      modifies this`client, this`attempts, this`connecting
      ensures Current() == Apply(old(Current()), if succeeds then HandshakeSucceeds(id) else HandshakeFails(id))
      ensures client == if succeeds && !closed then Some(id) else old(client)
    {
      if !succeeds || closed {
        attempts := attempts[id := CleaningUp];
        return;
      }
      if connecting == Some(id) {
        connecting := None;
      }
      client, attempts := Some(id), attempts[id := Kept];
    }

    method CleanUp(id: nat)
      requires id in attempts && attempts[id].CleaningUp?
      modifies this`shut, this`attempts, this`connecting
      ensures Current() == Apply(old(Current()), CleanedUp(id)) && id in shut
    {
      shut := shut + {id};
      if connecting == Some(id) {
        connecting := None;
      }
      attempts := attempts[id := Lost];
    }

    /** What closes: the call starts, waits for the attempt, closes the client, and ends. */
    method ProceedClose(k: nat)
      requires Enabled(Current(), CloseProceeds(k))
      modifies this`closers
      ensures Current() == Apply(old(Current()), CloseProceeds(k))
      ensures closers[k].Finished? <==> client == None
    {
      closers := closers[k := if client.Some? then Shutting(client.value) else Finished];
    }

    method FinishClose(k: nat)
      requires Enabled(Current(), CloseFinishes(k))
      modifies this`client, this`closers, this`shut
      ensures Current() == Apply(old(Current()), CloseFinishes(k))
      ensures client == None && closers[k].Finished?
    {
      shut := shut + {closers[k].client};
      client, closers := None, closers[k := Finished];
    }

    /** The piece of `connect` or `close` that runs. */
    method Dispatch(a: Action)
      requires Enabled(Current(), a) && !a.Connect?
      modifies this`client, this`pending, this`connecting, this`closed, this`attempts, this`closers, this`shut
      ensures Current() == Apply(old(Current()), a)
    {
      match a
      case HandshakeSucceeds(id) => Resume(id, true);
      case HandshakeFails(id) => Resume(id, false);
      case CleanedUp(id) => CleanUp(id);
      case Settle(id) => pending, attempts := None, attempts - {id};
      case Close => closed, closers := true, closers + [Waiting(pending)];
      case CloseProceeds(k) => ProceedClose(k);
      case CloseFinishes(k) => FinishClose(k);
    }

    method Piece(a: Action)
      requires Linked() && Enabled(Current(), a)
      modifies this
      ensures Linked() && trail == old(trail) + [a] && states == old(states) + [Current()]
    {
      if a.Connect? {
        var _ := Connect();
        return;
      }
      RunOneMore(states, trail, a);
      Dispatch(a);
      states, trail := states + [Current()], trail + [a];
    }

    /** Any calls and any course of their handshakes, in any order: a run of the machine, at whose end nothing leaks. */
    method Serve(actions: seq<Action>)
      requires Linked()
      modifies this
      ensures Linked() && trail == old(trail) + Possible(old(Current()), actions) && NothingLeaks(Current())
    {
      for k := 0 to |actions|
        invariant Linked()
        invariant trail + Possible(Current(), actions[k..]) == old(trail) + Possible(old(Current()), actions)
      {
        ghost var n := |trail|;
        assert actions[k..][0] == actions[k] && actions[k..][1..] == actions[k + 1..];
        if Enabled(Current(), actions[k]) {
          Piece(actions[k]);
          assert states[n + 1] == Apply(states[n], trail[n]);
        }
      }
      NothingLeaksInRun(states, trail);
    }
  }

  lemma NothingLeaksInRun(states: seq<State>, actions: seq<Action>)
    requires Run(states, actions) && states[0] == FRESH
    ensures NothingLeaks(states[|actions|])
  {
    var n := |actions|;
    RunKeepsInv(states, actions, n);
    NoClientIsLost(states, actions, n);
    if Ended(states[n]) {
      NothingAfterClose(states, actions, n, n);
    }
  }
}
