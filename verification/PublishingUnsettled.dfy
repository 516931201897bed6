/**
 Why each promise is needed: on a server with operation records, a commit that lands between the status query and
 the session query of the next run is missed, and the manifest is published twice. It may come from a dead client's
 request, from a worker that outlived its lease, or from a client that still runs.
 */
module PublishingUnsettled {
  import opened Prelude
  import opened Publishing
  import opened PublishingSafety
  import opened PublishingTheorems
  import opened PublishingLegacy

  /** One more step of the trail `t` from `w0` to `w`. */
  lemma Step(c: Config, w0: World, t: seq<Action>, w: World, a: Action) returns (t': seq<Action>, w': World)
    requires Run(c, w0, t) == Some(w) && Enabled(c, w, a)
    ensures w' == Apply(c, w, a) && Run(c, w0, t') == Some(w')
  {
    t', w' := t + [a], Apply(c, w, a);
    RunAppend(c, w0, t, [a]);
    assert Run(c, w', []) == Some(w');
  }

  // The steps that the runs below are made of.

  lemma Sends(c: Config, w0: World, t: seq<Action>, w: World) returns (t': seq<Action>, w': World)
    requires Run(c, w0, t) == Some(w)
    requires w.pc.SendingInline? || w.pc.SendingStart? || (w.pc.SendingCommit? && w.journal.versionId.Some?)
    ensures w' == SendStep(w) && Run(c, w0, t') == Some(w')
  {
    t', w' := Step(c, w0, t, w, Send);
  }

  lemma Claims(c: Config, w0: World, t: seq<Action>, w: World, r: Request) returns (t': seq<Action>, w': World)
    requires Run(c, w0, t) == Some(w) && CanClaim(c, w, r)
    ensures w' == ClaimStep(w, r) && Run(c, w0, t') == Some(w')
  {
    t', w' := Step(c, w0, t, w, Claim(r));
  }

  lemma Works(c: Config, w0: World, t: seq<Action>, w: World, k: Key) returns (t': seq<Action>, w': World)
    requires Run(c, w0, t) == Some(w) && CanFinish(w, k)
    ensures w' == WorkStep(c, w, k) && Run(c, w0, t') == Some(w')
  {
    t', w' := Step(c, w0, t, w, Work(k));
  }

  lemma Receives(c: Config, w0: World, t: seq<Action>, w: World) returns (t': seq<Action>, w': World)
    requires Run(c, w0, t) == Some(w) && w.outstanding.Answered?
    requires w.pc.AwaitingInline? || w.pc.AwaitingStart? || w.pc.AwaitingCommit?
    ensures w' == AfterReply(w, w.outstanding.reply) && Run(c, w0, t') == Some(w')
  {
    t', w' := Step(c, w0, t, w, Receive);
  }

  lemma Saves(c: Config, w0: World, t: seq<Action>, w: World) returns (t': seq<Action>, w': World)
    requires Run(c, w0, t) == Some(w) && w.pc.Saving?
    ensures w' == w.(disk := Some(w.journal), pc := w.pc.next) && Run(c, w0, t') == Some(w')
  {
    t', w' := Step(c, w0, t, w, Save);
  }

  lemma Asks(c: Config, w0: World, t: seq<Action>, w: World) returns (t': seq<Action>, w': World)
    requires Run(c, w0, t) == Some(w) && (w.pc.AskingInline? || w.pc.AskingCommit?)
    ensures w' == AfterStatus(w, OperationStatus(c, w.server, Asked(w))) && Run(c, w0, t') == Some(w')
  {
    t', w' := Step(c, w0, t, w, AskOperation);
  }

  lemma Advances(c: Config, w0: World, t: seq<Action>, w: World) returns (t': seq<Action>, w': World)
    requires Run(c, w0, t) == Some(w) && w.pc.Uploading? && w.pc.index <= |c.files|
    ensures w' == NextFile(c, w) && Run(c, w0, t') == Some(w')
  {
    t', w' := Step(c, w0, t, w, Advance);
  }

  lemma Transfers(c: Config, w0: World, t: seq<Action>, w: World) returns (t': seq<Action>, w': World)
    requires Run(c, w0, t) == Some(w) && CanTransfer(c, w, Stored, true)
    ensures w' == TransferStep(c, w, Stored, true) && Run(c, w0, t') == Some(w')
  {
    t', w' := Step(c, w0, t, w, Transfer(Stored, true));
  }

  lemma Starts(c: Config, w0: World, t: seq<Action>, w: World) returns (t': seq<Action>, w': World)
    requires Run(c, w0, t) == Some(w) && !Live(w.pc) && Settled(c, w)
    ensures w' == StartStep(c, w, false) && Run(c, w0, t') == Some(w')
  {
    t', w' := Step(c, w0, t, w, Start(false));
  }

  lemma Crashes(c: Config, w0: World, t: seq<Action>, w: World) returns (t': seq<Action>, w': World)
    requires Run(c, w0, t) == Some(w) && Live(w.pc)
    ensures w' == StopStep(c, w) && Run(c, w0, t') == Some(w')
  {
    t', w' := Step(c, w0, t, w, Crash);
  }

  lemma Restarts(c: Config, w0: World, t: seq<Action>, w: World) returns (t': seq<Action>, w': World)
    requires Run(c, w0, t) == Some(w) && Enabled(c, w, FindNoSession)
    ensures w' == w.(journal := Restarted(w.journal), pc := Saving(SendingStart)) && Run(c, w0, t') == Some(w')
  {
    t', w' := Step(c, w0, t, w, FindNoSession);
  }

  /** A client about to open a session for an untouched generation. */
  ghost predicate AboutToOpen(w: World) {
    && w.pc.SendingStart? && w.outstanding.Nothing?
    && w.journal.versionId.None? && w.journal.result.None?
    && StartKey(w.journal.generation) !in w.server.operations
  }

  /** A client about to commit the open session `v`. */
  ghost predicate AboutToCommit(w: World, v: nat) {
    && w.pc.SendingCommit? && w.outstanding.Nothing?
    && w.journal.versionId == Some(v) && w.journal.result.None?
    && v < |w.server.sessions| && w.server.sessions[v].open
    && w.disk == Some(w.journal)
  }

  /** What filling a session leaves alone. */
  ghost predicate SameElsewhere(w: World, w': World) {
    && w'.journal.generation == w.journal.generation
    && w'.late == w.late
    && w'.server.published == w.server.published
    && (forall k: Key :: !k.StartKey? ==> (k in w'.server.operations <==> k in w.server.operations))
    && (forall g: nat :: g != w.journal.generation ==>
          (StartKey(g) in w'.server.operations <==> StartKey(g) in w.server.operations))
    && (forall k :: k in w'.server.operations && w'.server.operations[k].Lapsed? ==>
          k in w.server.operations && w.server.operations[k].Lapsed?)
  }

  /** The upload loop, one file after the other. */
  lemma {:induction false} Fill(c: Config, w0: World, t: seq<Action>, w: World, v: nat)
    returns (t': seq<Action>, w': World)
    requires Run(c, w0, t) == Some(w)
    requires w.pc.Uploading? && w.pc.index <= |c.files| && w.outstanding.Nothing?
    requires w.journal.versionId == Some(v) && w.journal.result.None?
    requires v < |w.server.sessions| && w.server.sessions[v].open
    ensures Run(c, w0, t') == Some(w')
    ensures AboutToCommit(w', v) && SameElsewhere(w, w')
    decreases |c.files| - w.pc.index
  {
    var i := w.pc.index;
    var t1, w1 := Advances(c, w0, t, w);
    if i == |c.files| {
      t', w' := Saves(c, w0, t1, w1);
    } else if c.files[i].path in w.journal.done {
      t', w' := Fill(c, w0, t1, w1, v);
    } else {
      var t2, w2 := Transfers(c, w0, t1, w1);
      var t3, w3 := Saves(c, w0, t2, w2);
      t', w' := Fill(c, w0, t3, w3, v);
    }
  }

  lemma OpenAndFill(c: Config, w0: World, t: seq<Action>, w: World) returns (t': seq<Action>, w': World, v: nat)
    requires !c.legacy
    requires Run(c, w0, t) == Some(w) && AboutToOpen(w)
    ensures Run(c, w0, t') == Some(w')
    ensures AboutToCommit(w', v) && SameElsewhere(w, w')
  {
    var g := w.journal.generation;
    v := |w.server.sessions|;
    var t1, w1 := Sends(c, w0, t, w);
    var t2, w2 := Claims(c, w0, t1, w1, PostStart(g));
    var t3, w3 := Works(c, w0, t2, w2, StartKey(g));
    var t4, w4 := Receives(c, w0, t3, w3);
    var t5, w5 := Saves(c, w0, t4, w4);
    t', w' := Fill(c, w0, t5, w5, v);
  }

  /** The first run is about to send its commit. */
  lemma ComeToCommit(c: Config) returns (t: seq<Action>, w: World, v: nat)
    requires c.Valid() && !c.legacy
    ensures Run(c, NEW_WORLD, t) == Some(w)
    ensures AboutToCommit(w, v) && w.late == {} && w.server.published == [] && w.journal.generation == 0
    ensures forall k: Key :: !k.StartKey? ==> k !in w.server.operations
    ensures forall k: Key :: k in w.server.operations ==> !w.server.operations[k].Lapsed?
    ensures StartKey(1) !in w.server.operations
  {
    var t1, w1 := Starts(c, NEW_WORLD, [], NEW_WORLD);
    var t2, w2 := Saves(c, NEW_WORLD, t1, w1);
    var t3, w3 := Asks(c, NEW_WORLD, t2, w2);
    var t4, w4 := Asks(c, NEW_WORLD, t3, w3);
    t, w, v := OpenAndFill(c, NEW_WORLD, t4, w4);
  }

  /** The next run, just started, asks for the inline request and is about to ask for the commit. */
  lemma AskInline(c: Config, t: seq<Action>, w: World, v: nat) returns (t': seq<Action>, w': World)
    requires c.Valid() && !c.legacy && Run(c, NEW_WORLD, t) == Some(w)
    requires w.pc == Saving(FirstQuestion(c, w.journal)) && w.journal.versionId == Some(v)
    requires InlineKey !in w.server.operations
    ensures Run(c, NEW_WORLD, t') == Some(w')
    ensures w' == w.(disk := Some(w.journal), pc := AskingCommit)
  {
    var t2, w2 := Saves(c, NEW_WORLD, t, w);
    if c.asyncPackage {
      t2, w2 := Step(c, NEW_WORLD, t2, w2, AskPackage(NoJob));
    }
    t', w' := Asks(c, NEW_WORLD, t2, w2);
  }

  /** The second run has asked for the commit's status, which was not yet known to the server. */
  lemma AskTooEarly(c: Config) returns (t: seq<Action>, w: World, v: nat)
    requires c.Valid() && !c.legacy && !c.drained
    ensures Run(c, NEW_WORLD, t) == Some(w)
    ensures CommitCanLand(w, v)
  {
    var t0, w0, v0 := ComeToCommit(c);
    v := v0;
    var t1, w1 := Sends(c, NEW_WORLD, t0, w0);
    var t2, w2 := Crashes(c, NEW_WORLD, t1, w1);
    var t3, w3 := Starts(c, NEW_WORLD, t2, w2);
    t, w := AskBeforeArrival(c, t3, w3, v);
  }

  /** A client asks for a commit that is still in the network. */
  lemma AskBeforeArrival(c: Config, t: seq<Action>, w: World, v: nat) returns (t': seq<Action>, w': World)
    requires c.Valid() && !c.legacy && Run(c, NEW_WORLD, t) == Some(w)
    requires w.pc == Saving(FirstQuestion(c, w.journal)) && w.outstanding.Nothing? && w.server.published == []
    requires w.journal.generation == 0 && w.journal.versionId == Some(v) && w.journal.result.None? && !w.inline
    requires v < |w.server.sessions| && w.server.sessions[v].open && PostCommit(0, v) in w.late
    requires forall k: Key :: !k.StartKey? ==> k !in w.server.operations
    requires StartKey(1) !in w.server.operations
    ensures Run(c, NEW_WORLD, t') == Some(w') && CommitCanLand(w', v)
  {
    var t1, w1 := AskInline(c, t, w, v);
    var t2, w2 := Asks(c, NEW_WORLD, t1, w1);
    t', w' := Claims(c, NEW_WORLD, t2, w2, PostCommit(0, v));
  }

  /** A second client, started beside the first one, has asked for the commit that the first one has not sent yet. */
  lemma AskBeside(c: Config) returns (t: seq<Action>, w: World, v: nat)
    requires c.Valid() && !c.legacy && !c.alone
    ensures Run(c, NEW_WORLD, t) == Some(w)
    ensures CommitCanLand(w, v)
  {
    var t0, w0, v0 := ComeToCommit(c);
    v := v0;
    var t1, w1 := Step(c, NEW_WORLD, t0, w0, Overtake(false));
    t, w := AskBeforeArrival(c, t1, w1, v);
  }

  /** The second run has asked for the commit's status when its worker had just outlived the lease. */
  lemma AskOfLapsed(c: Config) returns (t: seq<Action>, w: World, v: nat)
    requires c.Valid() && !c.legacy && !c.leased
    ensures Run(c, NEW_WORLD, t) == Some(w)
    ensures CommitCanLand(w, v)
  {
    var t0, w0, v0 := ComeToCommit(c);
    v := v0;
    var t1, w1 := Sends(c, NEW_WORLD, t0, w0);
    var t2, w2 := Claims(c, NEW_WORLD, t1, w1, PostCommit(0, v));
    var t3, w3 := Crashes(c, NEW_WORLD, t2, w2);
    var t4, w4 := Starts(c, NEW_WORLD, t3, w3);
    t, w := AskWhileLapsing(c, t4, w4, v);
  }

  lemma AskWhileLapsing(c: Config, t: seq<Action>, w: World, v: nat) returns (t': seq<Action>, w': World)
    requires c.Valid() && !c.legacy && !c.leased && Run(c, NEW_WORLD, t) == Some(w)
    requires w.pc == Saving(FirstQuestion(c, w.journal)) && w.outstanding.Nothing? && w.server.published == []
    requires w.journal.generation == 0 && w.journal.versionId == Some(v) && w.journal.result.None? && !w.inline
    requires v < |w.server.sessions| && w.server.sessions[v].open && InlineKey !in w.server.operations
    requires CommitKey(0) in w.server.operations && w.server.operations[CommitKey(0)] == Running(PostCommit(0, v))
    requires CommitKey(1) !in w.server.operations && StartKey(1) !in w.server.operations
    ensures Run(c, NEW_WORLD, t') == Some(w') && CommitCanLand(w', v)
  {
    var t1, w1 := AskInline(c, t, w, v);
    var t2, w2 := Step(c, NEW_WORLD, t1, w1, Lapse(CommitKey(0)));
    t', w' := Asks(c, NEW_WORLD, t2, w2);
  }

  /** The status queries are behind the client, and a worker can still commit what they asked for. */
  ghost predicate CommitCanLand(w: World, v: nat) {
    && w.pc.AskingSession? && w.outstanding.Nothing? && w.server.published == []
    && w.journal.generation == 0 && w.journal.versionId == Some(v) && w.journal.result.None?
    && v < |w.server.sessions| && w.server.sessions[v].open
    && WorksOn(w.server, CommitKey(0), PostCommit(0, v)) && !w.server.operations[CommitKey(0)].Stale?
    && CommitKey(1) !in w.server.operations && StartKey(1) !in w.server.operations
  }

  /** The commit lands, and only then does the run ask for its session. */
  lemma MissTheCommit(c: Config, t: seq<Action>, w: World, v: nat) returns (t': seq<Action>, w': World)
    requires c.Valid() && !c.legacy && Run(c, NEW_WORLD, t) == Some(w) && CommitCanLand(w, v)
    ensures Run(c, NEW_WORLD, t') == Some(w') && AboutToOpen(w') && w'.journal.generation == 1
    ensures |w'.server.published| == 1 && CommitKey(1) !in w'.server.operations
  {
    var t1, w1 := Works(c, NEW_WORLD, t, w, CommitKey(0));
    var t2, w2 := Restarts(c, NEW_WORLD, t1, w1);
    t', w' := Saves(c, NEW_WORLD, t2, w2);
  }

  /** A commit that is sent and served. */
  lemma ServeCommit(c: Config, t: seq<Action>, w: World, g: nat, v: nat) returns (t': seq<Action>, w': World)
    requires !c.legacy && Run(c, NEW_WORLD, t) == Some(w) && AboutToCommit(w, v)
    requires w.journal.generation == g && CommitKey(g) !in w.server.operations
    ensures Run(c, NEW_WORLD, t') == Some(w') && |w'.server.published| == |w.server.published| + 1
  {
    var t1, w1 := Sends(c, NEW_WORLD, t, w);
    var t2, w2 := Claims(c, NEW_WORLD, t1, w1, PostCommit(g, v));
    t', w' := Works(c, NEW_WORLD, t2, w2, CommitKey(g));
  }

  /** The manifest is published again. */
  lemma PublishAgain(c: Config, t: seq<Action>, w: World, v: nat) returns (t': seq<Action>, w': World)
    requires c.Valid() && !c.legacy && Run(c, NEW_WORLD, t) == Some(w) && CommitCanLand(w, v)
    ensures Run(c, NEW_WORLD, t') == Some(w') && |w'.server.published| == 2
  {
    var t1, w1 := MissTheCommit(c, t, w, v);
    var t2, w2, v2 := OpenAndFill(c, NEW_WORLD, t1, w1);
    t', w' := ServeCommit(c, t2, w2, 1, v2);
  }

  /** A run with two publications, when one of the promises is missing. */
  lemma PublishesTwice(c: Config) returns (t: seq<Action>, w: World)
    requires c.Valid() && !c.legacy && !(c.alone && c.drained && c.leased)
    ensures Run(c, NEW_WORLD, t) == Some(w) && |w.server.published| == 2
  {
    var t0, w0, v;
    if !c.alone {
      t0, w0, v := AskBeside(c);
    } else if !c.drained {
      t0, w0, v := AskTooEarly(c);
    } else {
      t0, w0, v := AskOfLapsed(c);
    }
    t, w := PublishAgain(c, t0, w0, v);
  }

  ghost predicate PublishesOnceInEveryRun(c: Config) {
    forall actions :: Run(c, NEW_WORLD, actions).Some? ==>
      |Run(c, NEW_WORLD, actions).value.server.published| <= 1
  }

  /**
   Exactly when publication is at most once: either the server keeps no records, so that the write-ahead flags stop
   every second attempt, or all three promises hold. Each of them is needed.
   */
  lemma AtMostOnceIffSettledOrLegacy(c: Config)
    requires c.Valid()
    ensures PublishesOnceInEveryRun(c) <==> (c.alone && c.drained && c.leased) || c.legacy
  {
    if c.legacy {
      forall actions | Run(c, NEW_WORLD, actions).Some?
        ensures |Run(c, NEW_WORLD, actions).value.server.published| <= 1
      {
        LegacyPublishesAtMostOnce(c, actions, PostInline, PostInline);
      }
    } else if c.alone && c.drained && c.leased {
      forall actions | Run(c, NEW_WORLD, actions).Some?
        ensures |Run(c, NEW_WORLD, actions).value.server.published| <= 1
      {
        PublishesAtMostOnce(c, actions);
      }
    } else {
      var t, w := PublishesTwice(c);
    }
  }
}
