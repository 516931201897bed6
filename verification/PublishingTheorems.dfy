/**
 The guarantees of recoverable publication, over whole runs.
 */
module PublishingTheorems {
  import opened Prelude
  import opened Publishing
  import opened PublishingSafety

  // ----- runs -----

  predicate ByTheClient(a: Action) {
    || a.Start? || a.Overtake? || a.Save? || a.Fail? || a.Crash? || a.AskPackage? || a.RetryPackage? || a.AskOperation?
    || a.AskSession? || a.FindNoSession? || a.Send? || a.Receive? || a.LoseReply? || a.Advance? || a.Transfer?
  }

  lemma ClientKeepsInv(c: Config, w: World, a: Action)
    requires Sound(c) && Inv(c, w) && Enabled(c, w, a) && ByTheClient(a)
    ensures Inv(c, Apply(c, w, a))
  {
    match a
    case Start(inline) => KeepStart(c, w, inline);
    case Overtake(_) =>
    case Save => KeepSave(c, w);
    case Fail => KeepFail(c, w);
    case Crash => KeepCrash(c, w);
    case AskPackage(reply) => KeepAskPackage(c, w, reply);
    case RetryPackage(found) => KeepRetryPackage(c, w, found);
    case AskOperation => KeepAskOperation(c, w);
    case AskSession => KeepAskSession(c, w);
    case FindNoSession => KeepFindNoSession(c, w);
    case Send => KeepSend(c, w);
    case Receive => KeepReceive(c, w);
    case LoseReply => KeepLoseReply(c, w);
    case Advance => KeepAdvance(c, w);
    case Transfer(e, acknowledged) => KeepTransfer(c, w, e, acknowledged);
  }

  lemma ServerKeepsInv(c: Config, w: World, a: Action)
    requires Sound(c) && Inv(c, w) && Enabled(c, w, a) && !ByTheClient(a)
    ensures Inv(c, Apply(c, w, a))
  {
    match a
    case Claim(q) => KeepClaim(c, w, q);
    case Refuse(reply) => KeepRefuse(c, w, reply);
    case Drop(q) => KeepDrop(c, w, q);
    case Replay => KeepReplay(c, w);
    case Work(k) => KeepWork(c, w, k);
    case GiveUp(k) => KeepGiveUp(c, w, k);
    case Enqueue(k) => KeepEnqueue(c, w, k);
    case Lapse(k) => KeepLapse(c, w, k);
    case Renew(k) => KeepRenew(c, w, k);
    case Retire(k) => KeepRetire(c, w, k);
    case Sweep(k) => KeepSweep(c, w, k);
    case ExpireSession(v) => KeepExpireSession(c, w, v);
    case DeleteArtifact(id) => KeepDeleteArtifact(c, w, id);
    case ServeLegacy(_) =>
    case LandPut(q, e) => KeepLandPut(c, w, q, e);
  }

  lemma KeepInv(c: Config, w: World, a: Action)
    requires Sound(c) && Inv(c, w) && Enabled(c, w, a)
    ensures Inv(c, Apply(c, w, a))
  {
    if ByTheClient(a) {
      ClientKeepsInv(c, w, a);
    } else {
      ServerKeepsInv(c, w, a);
    }
  }

  lemma {:induction false} RunKeepsInv(c: Config, w: World, actions: seq<Action>)
    requires Sound(c) && Inv(c, w) && Run(c, w, actions).Some?
    ensures Inv(c, Run(c, w, actions).value)
    decreases |actions|
  {
    if actions != [] {
      KeepInv(c, w, actions[0]);
      RunKeepsInv(c, Apply(c, w, actions[0]), actions[1..]);
    }
  }

  lemma NewWorldInv(c: Config)
    ensures Inv(c, NEW_WORLD)
  {
    assert forall r: Request :: !Active(NEW_WORLD, r);
  }

  lemma AtMostOne(c: Config, w: World)
    requires Sound(c) && Inv(c, w)
    ensures |w.server.published| <= 1
  {
    assert |w.server.published| > 1 ==> w.server.published[0].key != w.server.published[1].key;
  }

  /**
   At most once: whatever crashes, lost replies, expired sessions, retired records, deleted
   artifacts and reruns there are, one journal publishes at most one artifact, and that
   artifact is the whole manifest.
   */
  lemma PublishesAtMostOnce(c: Config, actions: seq<Action>)
    requires Sound(c) && Run(c, NEW_WORLD, actions).Some?
    ensures
      var s := Run(c, NEW_WORLD, actions).value.server;
      && |s.published| <= 1
      && (s.published != [] ==> s.published[0].content == Manifest(c))
  {
    NewWorldInv(c);
    RunKeepsInv(c, NEW_WORLD, actions);
    AtMostOne(c, Run(c, NEW_WORLD, actions).value);
  }

  /** Publications are never withdrawn from the record. */
  lemma {:induction false} PublishedGrows(c: Config, w: World, actions: seq<Action>)
    requires Run(c, w, actions).Some?
    ensures w.server.published <= Run(c, w, actions).value.server.published
    decreases |actions|
  {
    if actions != [] {
      PublishedStays(c, w, actions[0]);
      PublishedGrows(c, Apply(c, w, actions[0]), actions[1..]);
    }
  }

  // ----- what holds at every moment of every run -----

  /** Whatever was published under `commit:g` has the generation of the journal on disk. */
  lemma PublishedGenerationIsPersisted(c: Config, actions: seq<Action>, id: nat)
    requires Sound(c) && Run(c, NEW_WORLD, actions).Some?
    requires id < |Run(c, NEW_WORLD, actions).value.server.published|
    ensures
      var w := Run(c, NEW_WORLD, actions).value;
      var k := w.server.published[id].key;
      k == InlineKey || (w.disk.Some? && k == CommitKey(w.disk.value.generation))
  {
    NewWorldInv(c);
    RunKeepsInv(c, NEW_WORLD, actions);
  }

  /** A commit is sent only when its session holds exactly the manifest, or is closed and cannot publish. */
  lemma CommitIsComplete(c: Config, actions: seq<Action>)
    requires Sound(c) && Run(c, NEW_WORLD, actions).Some?
    requires Run(c, NEW_WORLD, actions).value.pc.SendingCommit?
    ensures
      var w := Run(c, NEW_WORLD, actions).value;
      w.journal.versionId.Some? && Ready(c, w.server, w.journal.versionId.value)
  {
    NewWorldInv(c);
    RunKeepsInv(c, NEW_WORLD, actions);
    var w := Run(c, NEW_WORLD, actions).value;
    var v := w.journal.versionId.value;
    if w.server.sessions[v].open {
      CompleteIsManifest(c, w.server, v);
    }
  }

  /** A journal without a session lists no finished file, on disk and in memory. */
  lemma NoSessionNothingDone(c: Config, actions: seq<Action>)
    requires Sound(c) && Run(c, NEW_WORLD, actions).Some?
    ensures
      var w := Run(c, NEW_WORLD, actions).value;
      && (w.disk.Some? && w.disk.value.versionId.None? ==> w.disk.value.done == [])
      && (Live(w.pc) && w.journal.versionId.None? ==> w.journal.done == [])
  {
    NewWorldInv(c);
    RunKeepsInv(c, NEW_WORLD, actions);
  }

  /** While the client opens, fills and is about to commit a session, nothing is or can be published. */
  lemma ClearMeansUnpublished(c: Config, w: World)
    requires Sound(c) && Inv(c, w) && Clear(w.pc)
    ensures w.server.published == []
    ensures forall r :: Publishes(r) ==> !Active(w, r)
  {
    assert w.server.published != [] ==> !w.server.published[0].key.StartKey?;
  }

  /** Once anything is published, no later client sends a create, open or commit request or a file. */
  lemma NoRequestAfterPublication(c: Config, before: seq<Action>, after: seq<Action>, a: Action)
    requires Sound(c) && Run(c, NEW_WORLD, before).Some?
    requires Run(c, NEW_WORLD, before).value.server.published != []
    requires Run(c, Run(c, NEW_WORLD, before).value, after).Some?
    requires a.Send? || a.Transfer?
    ensures !Enabled(c, Run(c, Run(c, NEW_WORLD, before).value, after).value, a)
  {
    NewWorldInv(c);
    RunKeepsInv(c, NEW_WORLD, before);
    var w := Run(c, NEW_WORLD, before).value;
    RunKeepsInv(c, w, after);
    PublishedGrows(c, w, after);
    NothingToSend(c, Run(c, w, after).value, a);
  }

  lemma NothingToSend(c: Config, w: World, a: Action)
    requires Sound(c) && Inv(c, w) && w.server.published != [] && (a.Send? || a.Transfer?)
    ensures !Enabled(c, w, a)
  {
    if Clear(w.pc) {
      ClearMeansUnpublished(c, w);
    }
  }

  /** Once the journal on disk holds a result, no run ever publishes again, and every run that returns
      reports that result. */
  lemma ResultIsFinal(c: Config, before: seq<Action>, after: seq<Action>)
    requires Sound(c) && Run(c, NEW_WORLD, before).Some?
    requires
      var w := Run(c, NEW_WORLD, before).value;
      w.disk.Some? && w.disk.value.result.Some? && Run(c, w, after).Some?
    ensures
      var w := Run(c, NEW_WORLD, before).value;
      var w' := Run(c, w, after).value;
      && w'.server.published == w.server.published
      && (w'.pc.Returned? ==> w.disk.value.result == Some(w'.pc.id))
  {
    NewWorldInv(c);
    RunKeepsInv(c, NEW_WORLD, before);
    var w := Run(c, NEW_WORLD, before).value;
    RunKeepsInv(c, w, after);
    PublishedGrows(c, w, after);
    OnlyOneResult(c, w);
    OnlyOneResult(c, Run(c, w, after).value);
  }

  lemma OnlyOneResult(c: Config, w: World)
    requires Sound(c) && Inv(c, w)
    ensures |w.server.published| <= 1
    ensures w.disk.Some? && w.disk.value.result.Some? ==> |w.server.published| == 1 && w.disk.value.result.value == 0
    ensures w.pc.Returned? ==> w.pc.id == 0
  {
    AtMostOne(c, w);
  }

  // ----- recovery finds the winner -----

  /** Something was published, its record and those of its siblings are within the seven-day window, and
      the artifact still exists; the client, if one runs, is on its way to that result. */
  ghost predicate OnCourse(c: Config, w: World) {
    && Inv(c, w)
    && w.server.published != []
    && w.server.published[0].key in w.server.operations
    && w.server.operations[w.server.published[0].key] == Done(0)
    && 0 !in w.server.deleted
    && (forall k :: k in w.server.operations ==> !w.server.operations[k].Expired? && !w.server.operations[k].Stale?)
    && (Live(w.pc) ==>
          || w.pc == Saving(AskingInline) || w.pc.AskingInline?
          || ((w.pc == Saving(AskingPackage) || w.pc.AskingPackage?) && w.journal.versionId.Some?)
          || (w.pc.AskingCommit? && w.server.published[0].key.CommitKey?)
          || w.pc == Saving(Returned(0)))
  }

  lemma OthersLeaveTheClient(c: Config, w: World, a: Action)
    requires Enabled(c, w, a) && !ByTheClient(a)
    ensures
      var w' := Apply(c, w, a);
      w'.pc == w.pc && w'.disk == w.disk && w'.journal == w.journal
  {
  }

  /** Asked on course, the status queries lead on or give the result. */
  lemma AnswerStaysOnCourse(c: Config, w: World)
    requires Sound(c) && OnCourse(c, w) && (w.pc.AskingInline? || w.pc.AskingCommit?)
    ensures OnCourse(c, AfterStatus(w, OperationStatus(c, w.server, Asked(w))))
  {
    KeepAskOperation(c, w);
    AtMostOne(c, w);
    if w.pc.AskingInline? {
      InlineAnswer(c, w);
    } else {
      CommitAnswer(c, w);
    }
  }

  lemma InlineAnswer(c: Config, w: World)
    requires Sound(c) && OnCourse(c, w) && w.pc.AskingInline? && |w.server.published| == 1
    ensures
      var w' := AfterStatus(w, OperationStatus(c, w.server, InlineKey));
      w'.server == w.server &&
      (w'.pc == Saving(Returned(0)) || (w'.pc.AskingCommit? && w.server.published[0].key.CommitKey?))
  {
  }

  lemma CommitAnswer(c: Config, w: World)
    requires Sound(c) && OnCourse(c, w) && w.pc.AskingCommit? && |w.server.published| == 1
    ensures
      var w' := AfterStatus(w, OperationStatus(c, w.server, Asked(w)));
      w'.server == w.server && w'.pc == Saving(Returned(0))
  {
  }

  lemma StartStaysOnCourse(c: Config, w: World, inline: bool)
    requires Sound(c) && OnCourse(c, w) && !Live(w.pc) && Settled(c, w)
    ensures OnCourse(c, StartStep(c, w, inline))
  {
    KeepStart(c, w, inline);
    AtMostOne(c, w);
  }

  lemma SaveStaysOnCourse(c: Config, w: World)
    requires Sound(c) && OnCourse(c, w) && w.pc.Saving?
    ensures OnCourse(c, w.(disk := Some(w.journal), pc := w.pc.next))
  {
    KeepSave(c, w);
  }

  lemma PackageStaysOnCourse(c: Config, w: World, reply: PackageReply)
    requires Sound(c) && OnCourse(c, w) && Enabled(c, w, AskPackage(reply))
    ensures OnCourse(c, AfterPackage(w, reply))
  {
    KeepAskPackage(c, w, reply);
    AtMostOne(c, w);
  }

  lemma StopStaysOnCourse(c: Config, w: World)
    requires Sound(c) && OnCourse(c, w) && Live(w.pc)
    ensures OnCourse(c, StopStep(c, w)) && OnCourse(c, StopStep(c, w.(disk := Some(w.journal))))
  {
    KeepCrash(c, w);
    KeepFail(c, w);
  }

  /** On course, these are all the steps a client has. */
  lemma StepsOnCourse(c: Config, w: World, a: Action)
    requires Sound(c) && OnCourse(c, w) && Enabled(c, w, a) && ByTheClient(a)
    ensures a.Start? || a.Save? || a.AskPackage? || a.AskOperation? || a.Fail? || a.Crash?
    ensures Apply(c, w, a).server == w.server
  {
  }

  lemma ClientStaysOnCourse(c: Config, w: World, a: Action)
    requires Sound(c) && OnCourse(c, w) && Enabled(c, w, a) && ByTheClient(a)
    ensures OnCourse(c, Apply(c, w, a))
    ensures Apply(c, w, a).server == w.server
  {
    StepsOnCourse(c, w, a);
    match a
    case Start(inline) => StartStaysOnCourse(c, w, inline);
    case Save => SaveStaysOnCourse(c, w);
    case AskPackage(reply) => PackageStaysOnCourse(c, w, reply);
    case AskOperation => AnswerStaysOnCourse(c, w);
    case _ => StopStaysOnCourse(c, w);
  }

  /** Nothing that others do publishes again, retires a row or disturbs the winner's. */
  lemma ServerLeavesTheWinner(c: Config, w: World, a: Action)
    requires Sound(c) && OnCourse(c, w) && Enabled(c, w, a) && !ByTheClient(a) && Inv(c, Apply(c, w, a))
    requires !a.Retire? && !a.DeleteArtifact?
    ensures
      var s, s', k := w.server, Apply(c, w, a).server, w.server.published[0].key;
      && s'.published == s.published && s'.deleted == s.deleted
      && k in s'.operations && s'.operations[k] == Done(0)
      && forall q :: q in s'.operations ==> !s'.operations[q].Expired? && !s'.operations[q].Stale?
  {
    AtMostOne(c, w);
    AtMostOne(c, Apply(c, w, a));
    PublishedStays(c, w, a);
  }

  lemma PublishedStays(c: Config, w: World, a: Action)
    requires Enabled(c, w, a)
    ensures w.server.published <= Apply(c, w, a).server.published
  {
  }

  lemma ServerStaysOnCourse(c: Config, w: World, a: Action)
    requires Sound(c) && OnCourse(c, w) && Enabled(c, w, a) && !ByTheClient(a)
    requires !a.Retire? && !a.DeleteArtifact?
    ensures OnCourse(c, Apply(c, w, a))
    ensures Apply(c, w, a).server.published == w.server.published
  {
    KeepInv(c, w, a);
    ServerLeavesTheWinner(c, w, a);
    OthersLeaveTheClient(c, w, a);
  }

  /** No interleaving of the client, the server, crashes and further runs leaves the course, short of the
      records expiring or the artifact being deleted; so no run fails by itself, and none publishes. */
  lemma StaysOnCourse(c: Config, w: World, a: Action)
    requires Sound(c) && OnCourse(c, w) && Enabled(c, w, a)
    requires !a.Retire? && !a.DeleteArtifact?
    ensures OnCourse(c, Apply(c, w, a))
    ensures Apply(c, w, a).server.published == w.server.published
    ensures Apply(c, w, a).pc.Returned? ==> Apply(c, w, a).pc.id == 0
    ensures ByTheClient(a) ==> Apply(c, w, a).server == w.server
  {
    if ByTheClient(a) {
      ClientStaysOnCourse(c, w, a);
    } else {
      ServerStaysOnCourse(c, w, a);
    }
    AtMostOne(c, Apply(c, w, a));
  }

  /** A step of a client on course that is answered. */
  predicate IsAnswered(a: Action) {
    a.Save? || a.AskPackage? || a.AskOperation?
  }

  /** An upper bound on the steps left until the recovered result is returned. */
  function StepsLeft(pc: Pc): nat {
    match pc
    case Saving(AskingPackage) => 6
    case AskingPackage => 5
    case Saving(AskingInline) => 5
    case AskingInline => 4
    case AskingCommit => 3
    case Saving(Returned(_)) => 1
    case _ => 0
  }

  /** Whatever the answer is, it brings the client nearer to the result. */
  lemma AnsweredStep(c: Config, w: World, a: Action)
    requires Sound(c) && OnCourse(c, w) && Live(w.pc) && Enabled(c, w, a) && IsAnswered(a)
    ensures
      var w' := Apply(c, w, a);
      && StepsLeft(w'.pc) < StepsLeft(w.pc)
      && (w'.pc.Returned? || Live(w'.pc))
      && (w'.pc.Returned? ==> w'.disk.Some? && w'.disk.value.result == Some(w'.pc.id))
  {
    AtMostOne(c, w);
  }

  lemma SomeAnswer(c: Config, w: World)
    requires Sound(c) && OnCourse(c, w) && Live(w.pc)
    ensures exists a :: IsAnswered(a) && Enabled(c, w, a)
  {
    assert w.pc.Saving? ==> Enabled(c, w, Save);
    assert w.pc.AskingPackage? ==> Enabled(c, w, AskPackage(NoJob));
    assert w.pc.AskingInline? || w.pc.AskingCommit? ==> Enabled(c, w, AskOperation);
    assert IsAnswered(Save) && IsAnswered(AskPackage(NoJob)) && IsAnswered(AskOperation);
  }

  /** What may happen while one client runs to its end: its answered steps, and whatever the server and the network do,
      short of retiring a record or deleting the artifact. */
  predicate Undisturbed(a: Action) {
    IsAnswered(a) || (!ByTheClient(a) && !a.Retire? && !a.DeleteArtifact?)
  }

  /** The answered steps of a run. */
  function Answers(actions: seq<Action>): nat {
    if actions == [] then 0 else (if IsAnswered(actions[0]) then 1 else 0) + Answers(actions[1..])
  }

  /** A client that has returned the published artifact, which is stored. */
  predicate Recovered(w: World) {
    w.pc == Returned(0) && w.disk.Some? && w.disk.value.result == Some(0)
  }

  lemma {:induction false} RecoveredStays(c: Config, w: World, actions: seq<Action>)
    requires Sound(c) && OnCourse(c, w) && Recovered(w) && Run(c, w, actions).Some?
    requires forall a :: a in actions ==> Undisturbed(a)
    ensures Answers(actions) == 0 && Recovered(Run(c, w, actions).value)
    ensures Run(c, w, actions).value.server.published == w.server.published
    decreases |actions|
  {
    if actions != [] {
      var a := actions[0];
      assert Undisturbed(a);
      assert !IsAnswered(a);
      OthersLeaveTheClient(c, w, a);
      StaysOnCourse(c, w, a);
      RecoveredStays(c, Apply(c, w, a), actions[1..]);
    }
  }

  /** One step of such a run: a client that has not returned comes no nearer by what others do. */
  lemma UndisturbedStep(c: Config, w: World, a: Action)
    requires Sound(c) && OnCourse(c, w) && Live(w.pc) && Enabled(c, w, a) && Undisturbed(a)
    ensures
      var w' := Apply(c, w, a);
      && OnCourse(c, w') && w'.server.published == w.server.published
      && StepsLeft(w'.pc) + (if IsAnswered(a) then 1 else 0) <= StepsLeft(w.pc)
      && (Live(w'.pc) || Recovered(w'))
  {
    StaysOnCourse(c, w, a);
    if IsAnswered(a) {
      AnsweredStep(c, w, a);
    } else {
      OthersLeaveTheClient(c, w, a);
    }
  }

  /** A client's queries and saves change nothing on the server. */
  lemma {:induction false} AnswersLeaveTheServer(c: Config, w: World, actions: seq<Action>)
    requires Run(c, w, actions).Some? && forall a :: a in actions ==> IsAnswered(a)
    ensures Run(c, w, actions).value.server == w.server
    decreases |actions|
  {
    if actions != [] {
      assert IsAnswered(actions[0]);
      AnswersLeaveTheServer(c, Apply(c, w, actions[0]), actions[1..]);
    }
  }

  /**
   A client on course whose requests are answered, in whatever way and whatever else happens in between, publishes
   nothing and comes to the published artifact: it takes no more answered steps than the bound, it can go on until it
   has returned, and then the artifact is stored.
   */
  lemma {:induction false} AnsweredRunReturns(c: Config, w: World, actions: seq<Action>)
    requires Sound(c) && OnCourse(c, w) && Live(w.pc) && Run(c, w, actions).Some?
    requires forall a :: a in actions ==> Undisturbed(a)
    ensures
      var w' := Run(c, w, actions).value;
      && Answers(actions) <= StepsLeft(w.pc) && w'.server.published == w.server.published
      && (if Live(w'.pc) then exists a :: IsAnswered(a) && Enabled(c, w', a) else Recovered(w'))
    decreases |actions|
  {
    if actions == [] {
      SomeAnswer(c, w);
    } else {
      assert Undisturbed(actions[0]);
      var w1 := Apply(c, w, actions[0]);
      UndisturbedStep(c, w, actions[0]);
      if Live(w1.pc) {
        AnsweredRunReturns(c, w1, actions[1..]);
      } else {
        RecoveredStays(c, w1, actions[1..]);
      }
    }
  }

  /** A later run with the same files returns the published artifact and sends only status queries, whatever the package
      route answers on the way and whatever the server and the network do in between. */
  lemma RecoveryFindsTheWinner(c: Config, w: World, inline: bool, actions: seq<Action>)
    requires Sound(c) && OnCourse(c, w) && !Live(w.pc) && Settled(c, w)
    requires Run(c, StartStep(c, w, inline), actions).Some? && forall a :: a in actions ==> Undisturbed(a)
    ensures
      var w' := Run(c, StartStep(c, w, inline), actions).value;
      && Answers(actions) <= 6 && w'.server.published == w.server.published
      && ((forall a :: a in actions ==> IsAnswered(a)) ==> w'.server == w.server)
      && (if Live(w'.pc) then exists a :: IsAnswered(a) && Enabled(c, w', a) else Recovered(w'))
  {
    StartStaysOnCourse(c, w, inline);
    AnsweredRunReturns(c, StartStep(c, w, inline), actions);
    if forall a :: a in actions ==> IsAnswered(a) {
      AnswersLeaveTheServer(c, StartStep(c, w, inline), actions);
    }
  }
}
