/**
 A server without operation records: the journal's write-ahead flags alone keep publication
 at most once, even when dead clients' requests arrive late.
 */
module PublishingLegacy {
  import opened Prelude
  import opened Publishing
  import opened PublishingSafety

  /** A publication request that may still take effect. */
  ghost predicate Loose(w: World, r: Request) {
    Publishes(r) && (r in w.late || w.outstanding == InFlight(r))
  }

  ghost predicate NonePublishing(w: World) {
    w.server.published == [] && forall r :: !Loose(w, r)
  }

  predicate Attempted(j: Journal) {
    j.inlineAttempted || j.commitAttempted
  }

  ghost predicate FlagsAhead(w: World) {
    && (!NonePublishing(w) ==> w.disk.Some? && Attempted(w.disk.value))
    && (!NonePublishing(w) && Live(w.pc) ==> Attempted(w.journal))
    && (!NonePublishing(w) && w.pc.AskingCommit? ==> w.journal.commitAttempted)
    && (Clear(w.pc) ==> NonePublishing(w))
    && (BeforeFirstSave(w.pc) ==> w.journal == Loaded(w.disk))
    && (w.pc.SendingInline? || w.pc.AwaitingInline? ==>
          w.disk.Some? && w.disk.value.inlineAttempted && w.journal.inlineAttempted)
    && (w.pc == Saving(SendingInline) ==> w.journal.inlineAttempted)
    && (w.pc.SendingCommit? || w.pc.AwaitingCommit? ==>
          w.disk.Some? && w.disk.value.commitAttempted && w.journal.commitAttempted)
    && (w.pc == Saving(SendingCommit) ==> w.journal.commitAttempted)
  }

  ghost predicate AtMostOneLoose(w: World) {
    && |w.server.published| <= 1
    && (w.server.published != [] ==> forall r :: !Loose(w, r))
    && (forall q, r :: Loose(w, q) && Loose(w, r) ==> q == r)
    && (w.outstanding.InFlight? && Publishes(w.outstanding.request) ==> w.outstanding.request !in w.late)
  }

  ghost predicate ClientFits(w: World) {
    && Reachable(w.pc)
    && (w.pc.Saving? ==> !w.pc.next.AskingPackage?)
    && !w.pc.AskingPackage? && !w.pc.RetryingPackage?
    && (w.pc.Waiting? ==> !w.pc.resumed)
    && !w.outstanding.AtServer?
    && (!w.outstanding.Nothing? ==> w.pc.AwaitingInline? || w.pc.AwaitingStart? || w.pc.AwaitingCommit?)
    && (w.outstanding.InFlight? ==>
          && (w.pc.AwaitingInline? ==> w.outstanding.request.PostInline?)
          && (w.pc.AwaitingStart? ==> w.outstanding.request.PostStart?)
          && (w.pc.AwaitingCommit? ==> w.outstanding.request.PostCommit?))
    && (w.outstanding == Answered(TooLarge) && w.pc.AwaitingInline? ==> NonePublishing(w))
    && (w.outstanding.Answered? ==> !w.outstanding.reply.Accepted?)
  }

  ghost predicate LegacyInv(w: World) {
    w.server.operations == map[] && FlagsAhead(w) && AtMostOneLoose(w) && ClientFits(w)
  }

  lemma LegacyStart(c: Config, w: World, inline: bool)
    requires c.Valid() && c.legacy && LegacyInv(w) && !Live(w.pc)
    ensures LegacyInv(StartStep(c, w, inline))
  {
    var w' := StartStep(c, w, inline);
    assert forall r: Request :: Loose(w', r) <==> Loose(w, r);
  }

  /** What a client can still send is already loose, unless its flag is on disk and nothing else is. */
  lemma UnsentIsFlagged(c: Config, w: World, r: Request)
    requires c.legacy && LegacyInv(w) && Live(w.pc) && r in Unsent(c, w) && Publishes(r) && !Loose(w, r)
    ensures NonePublishing(w) && w.disk.Some? && w.disk == Some(Loaded(w.disk))
    ensures r.PostInline? ==> w.pc.SendingInline? && w.disk.value.inlineAttempted
    ensures r.PostCommit? ==>
      && w.pc.SendingCommit? && w.disk.value.commitAttempted
      && r == PostCommit(w.journal.generation, w.journal.versionId.value)
  {
  }

  /** The requests of a client that was overtaken are as loose as those of a dead one. */
  lemma LegacyOvertake(c: Config, w: World, inline: bool)
    requires c.Valid() && c.legacy && LegacyInv(w) && Live(w.pc)
    ensures LegacyInv(OvertakeStep(c, w, inline))
  {
    var w' := OvertakeStep(c, w, inline);
    forall r: Request
      ensures Loose(w', r) <==> Loose(w, r) || (Publishes(r) && r in Unsent(c, w))
    {
      assert w.outstanding == InFlight(r) ==> r in Unsent(c, w);
    }
    if r :| Publishes(r) && r in Unsent(c, w) && !Loose(w, r) {
      UnsentIsFlagged(c, w, r);
      forall q | Publishes(q) && q in Unsent(c, w)
        ensures q == r
      {
        UnsentIsFlagged(c, w, q);
      }
    } else {
      assert NonePublishing(w') <==> NonePublishing(w);
    }
  }

  lemma LegacyStop(c: Config, w: World, w1: World, w': World)
    requires c.legacy && LegacyInv(w) && Live(w.pc)
    requires w1 == w || w1 == w.(disk := Some(w.journal))
    requires
      || w' == StopStep(c, w1)
      || (w1 == w && w' == w.(late := Abandoned(c, w), outstanding := Nothing, pc := Throwing))
    ensures LegacyInv(w')
  {
    assert forall r: Request :: Loose(w', r) <==> Loose(w, r);
  }

  /** Client steps that leave the network alone. */
  lemma LegacyAsk(c: Config, w: World, a: Action)
    requires c.Valid() && c.legacy && LegacyInv(w) && Enabled(c, w, a)
    requires a.AskOperation? || a.AskPackage? || a.RetryPackage? || a.AskSession?
    ensures LegacyInv(Apply(c, w, a))
  {
    var w' := Apply(c, w, a);
    assert forall r: Request :: Loose(w', r) <==> Loose(w, r);
    assert NonePublishing(w') <==> NonePublishing(w);
  }

  lemma LegacyAct(c: Config, w: World, a: Action)
    requires c.Valid() && c.legacy && LegacyInv(w) && Enabled(c, w, a)
    requires a.Save? || a.FindNoSession? || a.Advance? || a.Transfer?
    ensures LegacyInv(Apply(c, w, a))
  {
    var w' := Apply(c, w, a);
    assert forall r: Request :: Loose(w', r) <==> Loose(w, r);
    assert NonePublishing(w') <==> NonePublishing(w);
  }

  lemma LegacySend(c: Config, w: World)
    requires c.Valid() && c.legacy && LegacyInv(w)
    requires w.pc.SendingInline? || w.pc.SendingStart? || (w.pc.SendingCommit? && w.journal.versionId.Some?)
    ensures LegacyInv(SendStep(w))
  {
    var w' := SendStep(w);
    assert forall r: Request :: Loose(w', r) ==> Loose(w, r) || w'.outstanding == InFlight(r);
    assert !Loose(w, w'.outstanding.request);
  }

  lemma LegacyReceive(c: Config, w: World)
    requires c.Valid() && c.legacy && LegacyInv(w) && w.outstanding.Answered?
    requires w.pc.AwaitingInline? || w.pc.AwaitingStart? || w.pc.AwaitingCommit?
    ensures LegacyInv(AfterReply(w, w.outstanding.reply))
  {
    var w' := AfterReply(w, w.outstanding.reply);
    assert forall r: Request :: Loose(w', r) <==> Loose(w, r);
  }

  lemma LegacyServer(c: Config, w: World, a: Action)
    requires c.Valid() && c.legacy && LegacyInv(w) && Enabled(c, w, a)
    requires a.Refuse? || a.Drop? || a.ExpireSession? || a.DeleteArtifact? || a.LandPut?
    ensures LegacyInv(Apply(c, w, a))
  {
    var w' := Apply(c, w, a);
    assert forall r: Request :: Loose(w', r) ==> Loose(w, r);
    assert a.Refuse? && w.pc.AwaitingInline? ==> Loose(w, PostInline) && !Loose(w', PostInline);
  }

  lemma LegacyServe(c: Config, w: World, q: Request)
    requires c.Valid() && c.legacy && LegacyInv(w) && CanWork(w.server, q)
    requires q in w.late || w.outstanding == InFlight(q)
    ensures LegacyInv(LegacyStep(c, w, q))
  {
    var w' := LegacyStep(c, w, q);
    assert forall r: Request :: Loose(w', r) ==> Loose(w, r);
    assert Publishes(q) ==> Loose(w, q);
  }

  lemma KeepLegacyInv(c: Config, w: World, a: Action)
    requires c.Valid() && c.legacy && LegacyInv(w) && Enabled(c, w, a)
    ensures LegacyInv(Apply(c, w, a))
  {
    match a
    case Start(inline) => LegacyStart(c, w, inline);
    case Overtake(inline) => LegacyOvertake(c, w, inline);
    case Fail => LegacyStop(c, w, w.(disk := Some(w.journal)), Apply(c, w, a));
    case Crash => LegacyStop(c, w, w, Apply(c, w, a));
    case LoseReply => LegacyStop(c, w, w, Apply(c, w, a));
    case Send => LegacySend(c, w);
    case Receive => LegacyReceive(c, w);
    case Refuse(_) => LegacyServer(c, w, a);
    case Drop(_) => LegacyServer(c, w, a);
    case ExpireSession(_) => LegacyServer(c, w, a);
    case DeleteArtifact(_) => LegacyServer(c, w, a);
    case LandPut(_, _) => LegacyServer(c, w, a);
    case ServeLegacy(q) => LegacyServe(c, w, q);
    case Claim(_) =>
    case Replay =>
    case Work(_) =>
    case GiveUp(_) =>
    case Enqueue(_) =>
    case Lapse(_) =>
    case Renew(_) =>
    case Retire(_) =>
    case Sweep(_) =>
    case AskOperation => LegacyAsk(c, w, a);
    case AskPackage(_) => LegacyAsk(c, w, a);
    case RetryPackage(_) => LegacyAsk(c, w, a);
    case AskSession => LegacyAsk(c, w, a);
    case _ => LegacyAct(c, w, a);
  }

  lemma {:induction false} RunKeepsLegacyInv(c: Config, w: World, actions: seq<Action>)
    requires c.Valid() && c.legacy && LegacyInv(w) && Run(c, w, actions).Some?
    ensures LegacyInv(Run(c, w, actions).value)
    decreases |actions|
  {
    if actions != [] {
      KeepLegacyInv(c, w, actions[0]);
      RunKeepsLegacyInv(c, Apply(c, w, actions[0]), actions[1..]);
    }
  }

  /**
   Without any help from the server, and with requests of dead clients arriving arbitrarily
   late: at most one artifact is published, at most one publication request can still take
   effect, and never one after a publication. The flag is on disk before the request is sent.
   */
  lemma LegacyPublishesAtMostOnce(c: Config, actions: seq<Action>, q: Request, r: Request)
    requires c.Valid() && c.legacy && Run(c, NEW_WORLD, actions).Some?
    ensures
      var w := Run(c, NEW_WORLD, actions).value;
      && |w.server.published| <= 1
      && (Loose(w, q) && Loose(w, r) ==> q == r)
      && (w.server.published != [] ==> !Loose(w, r))
      && (w.pc.SendingInline? ==> w.disk.Some? && w.disk.value.inlineAttempted)
      && (w.pc.SendingCommit? ==> w.disk.Some? && w.disk.value.commitAttempted)
  {
    assert forall r: Request :: !Loose(NEW_WORLD, r);
    RunKeepsLegacyInv(c, NEW_WORLD, actions);
  }
}
