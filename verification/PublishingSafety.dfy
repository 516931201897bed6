/**
 Safety of recoverable publication over every run: at most one artifact is published for a
 journal, and what is published is the whole manifest.
 */
module PublishingSafety {
  import opened Prelude
  import opened Publishing

  lemma {:induction false} ContentAt(files: seq<File>, i: nat)
    requires forall j, k :: 0 <= j < k < |files| ==> files[j].path != files[k].path
    requires i < |files|
    ensures files[i].path in Content(files) && Content(files)[files[i].path] == files[i]
  {
    var last := |files| - 1;
    if i < last {
      ContentAt(files[..last], i);
      assert files[..last][i] == files[i];
    }
  }

  // ----- what a request can still do -----

  /** `r` is travelling, being worked on, or waiting for the server in the running client. */
  ghost predicate Active(w: World, r: Request) {
    || r in w.late
    || w.outstanding == InFlight(r)
    || (!r.PutFile? && WorksOn(w.server, KeyOf(r), r))
  }

  /** A worker under the key is working on `r`. */
  ghost predicate WorksOn(s: Server, k: Key, r: Request) {
    HasWorker(s, k) && s.operations[k].request == r
  }

  ghost predicate Landed(s: Server, k: Key) {
    exists i :: 0 <= i < |s.published| && s.published[i].key == k
  }

  /** No commit is active and none has published. */
  ghost predicate CommitQuiet(w: World) {
    && (forall g: nat, v: nat :: !Active(w, PostCommit(g, v)))
    && (forall i :: 0 <= i < |w.server.published| ==> !w.server.published[i].key.CommitKey?)
  }

  /** The inline request is not active and has not published. */
  ghost predicate InlineQuiet(w: World) {
    && !Active(w, PostInline)
    && (forall i :: 0 <= i < |w.server.published| ==> !w.server.published[i].key.InlineKey?)
  }

  // ----- the invariant, part by part -----

  /** The operation table and the list of publications agree. */
  ghost predicate TableAgrees(c: Config, s: Server) {
    && (forall k :: HasWorker(s, k) ==>
          !s.operations[k].request.PutFile? && KeyOf(s.operations[k].request) == k)
    && (forall k :: k in s.operations && s.operations[k].Done? ==>
          if k.StartKey? then s.operations[k].id < |s.sessions|
          else s.operations[k].id < |s.published| && s.published[s.operations[k].id].key == k)
    && (forall i :: 0 <= i < |s.published| ==>
          && !s.published[i].key.StartKey?
          && s.published[i].key in s.operations
          && (s.operations[s.published[i].key].Done? || s.operations[s.published[i].key].Expired?)
          && s.published[i].content == Manifest(c))
    && (forall i, j :: 0 <= i < j < |s.published| ==> s.published[i].key != s.published[j].key)
  }

  /** Sessions only ever hold files of the manifest. */
  ghost predicate SessionsAgree(c: Config, s: Server) {
    forall v, p :: 0 <= v < |s.sessions| && p in s.sessions[v].files ==>
      p in Manifest(c) && s.sessions[v].files[p] == Manifest(c)[p]
  }

  ghost predicate Ready(c: Config, s: Server, v: nat) {
    v < |s.sessions| && (s.sessions[v].open ==> s.sessions[v].files == Manifest(c))
  }

  /** Whatever is or was sent under `commit:g` has the persisted generation and session, and that session
      is complete. The inline request and a session exclude each other. */
  ghost predicate CommitsAgree(c: Config, w: World) {
    && (forall g: nat, v: nat :: Active(w, PostCommit(g, v)) ==>
          && w.disk.Some? && g == w.disk.value.generation && w.disk.value.versionId == Some(v)
          && Ready(c, w.server, v))
    && (forall i :: 0 <= i < |w.server.published| && w.server.published[i].key.CommitKey? ==>
          && w.disk.Some? && w.server.published[i].key.generation == w.disk.value.generation
          && w.server.published[i].versionId == w.disk.value.versionId)
    && (!InlineQuiet(w) ==> w.disk.Some? && w.disk.value.versionId.None?)
    && (CommitQuiet(w) || InlineQuiet(w))
    && (forall r :: r in w.late && r.PutFile? ==> CommitQuietNow(w))
  }

  /** No commit is active. */
  ghost predicate CommitQuietNow(w: World) {
    forall g: nat, v: nat :: !Active(w, PostCommit(g, v))
  }

  ghost predicate JournalAgrees(s: Server, j: Journal) {
    && (j.versionId.None? ==> j.done == [])
    && (j.versionId.Some? ==> j.versionId.value < |s.sessions|)
    && (j.result.Some? ==> j.result.value < |s.published|)
  }

  /** The points of the program between the status queries and the first publication request,
      and between a session's opening and its commit. */
  predicate Clear(pc: Pc) {
    match pc
    case SendingInline => true
    case AskingSession => true
    case SendingStart => true
    case AwaitingStart => true
    case Uploading(_) => true
    case Putting(_) => true
    case SendingCommit => true
    case Saving(SendingInline) => true
    case Saving(SendingStart) => true
    case Saving(Uploading(_)) => true
    case Saving(SendingCommit) => true
    case _ => false
  }

  /** How far the upload has come at `pc`; none outside the upload. */
  function Progress(c: Config, pc: Pc): Option<nat> {
    match pc
    case Uploading(i) => Some(i)
    case Putting(i) => Some(i)
    case Saving(Uploading(i)) => Some(i)
    case Saving(SendingCommit) => Some(|c.files|)
    case SendingCommit => Some(|c.files|)
    case _ => None
  }

  ghost predicate UploadAgrees(c: Config, w: World) {
    Progress(c, w.pc).Some? ==>
      var i := Progress(c, w.pc).value;
      && i <= |c.files| && w.journal.versionId.Some?
      && (w.pc.Putting? ==> w.pc.index < |c.files| && c.files[w.pc.index].path !in w.journal.done)
      && (forall k :: 0 <= k < i ==> c.files[k].path in w.journal.done)
      && (w.journal.versionId.value < |w.server.sessions| && w.server.sessions[w.journal.versionId.value].open ==>
            forall p :: p in w.journal.done ==> p in w.server.sessions[w.journal.versionId.value].files)
  }

  /** Every program counter that the client can reach. */
  predicate Reachable(pc: Pc) {
    pc.Saving? ==>
      || pc.next.AskingPackage? || pc.next.AskingInline? || pc.next.SendingInline? || pc.next.SendingStart?
      || pc.next.Uploading? || pc.next.SendingCommit? || pc.next.Returned?
  }

  predicate BeforeFirstSave(pc: Pc) {
    pc == Saving(AskingPackage) || pc == Saving(AskingInline)
  }

  ghost predicate OutstandingAgrees(w: World) {
    && (!w.outstanding.Nothing? ==> w.pc.AwaitingInline? || w.pc.AwaitingStart? || w.pc.AwaitingCommit?)
    && (w.outstanding.InFlight? || w.outstanding.AtServer? ==>
          match w.pc
          case AwaitingInline => w.outstanding.request == PostInline
          case AwaitingStart => w.outstanding.request == PostStart(w.journal.generation)
          case AwaitingCommit =>
            w.journal.versionId.Some? &&
            w.outstanding.request == PostCommit(w.journal.generation, w.journal.versionId.value)
          case _ => false)
    && (w.outstanding.AtServer? ==>
          WorksOn(w.server, KeyOf(w.outstanding.request), w.outstanding.request))
    && (w.outstanding.Answered? ==>
          match w.outstanding.reply
          case Published(id) => id < |w.server.published|
          case Opened(v) => v < |w.server.sessions|
          case TooLarge => InlineQuiet(w) && CommitQuiet(w)
          case _ => true)
    && (w.pc.AwaitingInline? && w.outstanding.InFlight? ==>
          && !HasWorker(w.server, InlineKey)
          && !Landed(w.server, InlineKey))
  }

  ghost predicate ClientAgrees(c: Config, w: World) {
    && Reachable(w.pc)
    && (Live(w.pc) && !w.pc.Throwing? ==> w.late == {})
    && (Live(w.pc) ==> forall k :: k in w.server.operations ==> !w.server.operations[k].Lapsed?)
    && (Live(w.pc) ==>
          && JournalAgrees(w.server, w.journal)
          && (!BeforeFirstSave(w.pc) ==> w.disk.Some?)
          && (BeforeFirstSave(w.pc) ==> w.journal == Loaded(w.disk))
          && (w.pc != Saving(SendingStart) && w.disk.Some? ==> w.journal.generation == w.disk.value.generation)
          && (w.pc != Saving(SendingStart) && w.disk.Some? && (w.pc.Saving? ==> !w.pc.next.Uploading?) ==>
                w.journal.versionId == w.disk.value.versionId))
    && (Clear(w.pc) ==> InlineQuiet(w) && CommitQuiet(w))
    && (w.pc.AskingCommit? ==> InlineQuiet(w))
    && (w.pc.AwaitingInline? ==> CommitQuiet(w))
    && (w.pc.AwaitingInline? || w.pc.SendingInline? || w.pc == Saving(SendingInline) ==> w.journal.versionId.None?)
    && (w.pc.SendingStart? || w.pc.AwaitingStart? || w.pc == Saving(SendingStart) ==> w.journal.versionId.None?)
    && (w.pc.AskingSession? ==> w.journal.versionId.Some?)
    && (w.pc.AwaitingCommit? ==> InlineQuiet(w))
    && (w.pc.Returned? ==> w.pc.id < |w.server.published|)
    && (w.pc.Saving? && w.pc.next.Returned? ==> w.journal.result == Some(w.pc.next.id))
  }

  ghost predicate LateAgrees(c: Config, w: World) {
    forall r :: r in w.late && r.PutFile? ==> r.versionId < |w.server.sessions| && r.index < |c.files|
  }

  ghost predicate ServerInv(c: Config, w: World) {
    && TableAgrees(c, w.server)
    && SessionsAgree(c, w.server)
    && CommitsAgree(c, w)
    && (w.disk.Some? ==> JournalAgrees(w.server, w.disk.value))
    && LateAgrees(c, w)
  }

  ghost predicate ClientInv(c: Config, w: World) {
    && OutstandingAgrees(w)
    && ClientAgrees(c, w)
    && UploadAgrees(c, w)
  }

  ghost predicate Inv(c: Config, w: World) {
    ServerInv(c, w) && ClientInv(c, w)
  }

  /** The server keeps operation records, and all promises hold. */
  ghost predicate Sound(c: Config) {
    c.Valid() && !c.legacy && c.alone && c.drained && c.leased
  }

  // ----- every action keeps the invariant -----

  /** A step of the client that leaves the server, the network and the disk alone. */
  lemma SameServer(c: Config, w: World, w': World)
    requires ServerInv(c, w)
    requires w'.server == w.server && w'.late == w.late && w'.disk == w.disk
    requires forall r: Request :: Active(w', r) <==> Active(w, r)
    ensures ServerInv(c, w')
    ensures CommitQuiet(w') <==> CommitQuiet(w)
    ensures InlineQuiet(w') <==> InlineQuiet(w)
  {
  }

  lemma KeepStart(c: Config, w: World, inline: bool)
    requires Sound(c) && Inv(c, w) && !Live(w.pc) && Settled(c, w)
    ensures Inv(c, StartStep(c, w, inline))
  {
    var w' := StartStep(c, w, inline);
    assert forall r: Request :: Active(w', r) ==> Active(w, r);
  }

  lemma KeepSave(c: Config, w: World)
    requires Sound(c) && Inv(c, w) && w.pc.Saving?
    ensures Inv(c, w.(disk := Some(w.journal), pc := w.pc.next))
  {
    var w' := w.(disk := Some(w.journal), pc := w.pc.next);
    assert forall r: Request :: Active(w', r) <==> Active(w, r);
  }

  lemma KeepFail(c: Config, w: World)
    requires Sound(c) && Inv(c, w) && Live(w.pc)
    ensures Inv(c, StopStep(c, w.(disk := Some(w.journal))))
  {
    var w' := StopStep(c, w.(disk := Some(w.journal)));
    assert forall r: Request :: !r.PutFile? ==> (Active(w', r) <==> Active(w, r));
  }

  lemma KeepCrash(c: Config, w: World)
    requires Sound(c) && Inv(c, w) && Live(w.pc)
    ensures Inv(c, StopStep(c, w))
  {
    var w' := StopStep(c, w);
    assert forall r: Request :: !r.PutFile? ==> (Active(w', r) <==> Active(w, r));
  }

  lemma KeepLoseReply(c: Config, w: World)
    requires Sound(c) && Inv(c, w) && Enabled(c, w, LoseReply)
    ensures Inv(c, Apply(c, w, LoseReply))
  {
    var w' := Apply(c, w, LoseReply);
    assert forall r: Request :: !r.PutFile? ==> (Active(w', r) <==> Active(w, r));
  }

  /** What the package route names as completed is published. */
  lemma KeepPackageReply(c: Config, w: World, reply: PackageReply)
    requires Sound(c) && Inv(c, w) && (w.pc.AskingPackage? || w.pc.Waiting?)
    requires reply.CompletedJob? ==> reply.id < |w.server.published|
    ensures Inv(c, AfterPackage(w, reply))
  {
    if reply.CompletedJob? {
      KeepFinish(c, w, reply.id);
    } else {
      KeepPackageWait(c, w, AfterPackage(w, reply));
    }
  }

  /** The client goes on without a result. */
  lemma KeepPackageWait(c: Config, w: World, w': World)
    requires Sound(c) && Inv(c, w) && (w.pc.AskingPackage? || w.pc.Waiting?) && w' == w.(pc := w'.pc)
    requires w'.pc.Waiting? || w'.pc.RetryingPackage? || w'.pc.Throwing? || w'.pc.AskingInline?
    ensures Inv(c, w')
  {
    assert forall r: Request :: Active(w', r) <==> Active(w, r);
    SameServer(c, w, w');
  }

  lemma KeepAskPackage(c: Config, w: World, reply: PackageReply)
    requires Sound(c) && Inv(c, w) && Enabled(c, w, AskPackage(reply))
    ensures Inv(c, AfterPackage(w, reply))
  {
    KeepPackageReply(c, w, reply);
  }

  lemma KeepRetryPackage(c: Config, w: World, found: bool)
    requires Sound(c) && Inv(c, w) && w.pc.RetryingPackage?
    ensures Inv(c, w.(pc := if found then Waiting(true) else AskingInline))
  {
    var w' := w.(pc := if found then Waiting(true) else AskingInline);
    assert forall r: Request :: Active(w', r) <==> Active(w, r);
    SameServer(c, w, w');
  }

  lemma KeepFinish(c: Config, w: World, id: nat)
    requires Sound(c) && Inv(c, w)
    requires Live(w.pc) && !w.pc.Throwing? && !w.pc.Saving?
    requires w.outstanding.Nothing? && id < |w.server.published|
    ensures Inv(c, Finish(w, id))
  {
    var w' := Finish(w, id);
    assert forall r: Request :: Active(w', r) <==> Active(w, r);
    SameServer(c, w, w');
  }

  lemma KeepAfterQueries(c: Config, w: World)
    requires Sound(c) && Inv(c, w) && w.pc.AskingCommit? && CommitQuiet(w)
    ensures Inv(c, AfterQueries(w))
  {
    var w' := AfterQueries(w);
    assert forall r: Request :: Active(w', r) <==> Active(w, r);
    SameServer(c, w, w');
  }

  /** The status of the key under `operations` says that nothing has or can be published by it. */
  lemma QuietKey(c: Config, w: World)
    requires Sound(c) && Inv(c, w)
    requires w.pc.AskingInline? || w.pc.AskingCommit?
    requires OperationStatus(c, w.server, Asked(w)).NotFound? || OperationStatus(c, w.server, Asked(w)).Retryable?
    ensures if w.pc.AskingInline? then InlineQuiet(w) else CommitQuiet(w)
  {
  }

  /** A status that names a result names a publication. */
  lemma CompletedIsPublished(c: Config, s: Server, k: Key)
    requires TableAgrees(c, s) && !k.StartKey? && OperationStatus(c, s, k).Completed?
    ensures OperationStatus(c, s, k).id < |s.published|
  {
  }

  lemma KeepQuietStatus(c: Config, w: World, status: Status)
    requires Sound(c) && Inv(c, w) && (w.pc.AskingInline? || w.pc.AskingCommit?)
    requires status == OperationStatus(c, w.server, Asked(w)) && (status.NotFound? || status.Retryable?)
    ensures Inv(c, AfterStatus(w, status))
  {
    QuietKey(c, w);
    KeepNextQuestion(c, w);
  }

  lemma KeepAskOperation(c: Config, w: World)
    requires Sound(c) && Inv(c, w) && (w.pc.AskingInline? || w.pc.AskingCommit?)
    ensures Inv(c, AfterStatus(w, OperationStatus(c, w.server, Asked(w))))
  {
    var status := OperationStatus(c, w.server, Asked(w));
    if status.Completed? {
      CompletedIsPublished(c, w.server, Asked(w));
      KeepFinish(c, w, status.id);
    } else if status.NotFound? || status.Retryable? {
      KeepQuietStatus(c, w, status);
    } else {
      KeepThrow(c, w);
    }
  }

  lemma KeepNextQuestion(c: Config, w: World)
    requires Sound(c) && Inv(c, w)
    requires (w.pc.AskingInline? && InlineQuiet(w)) || (w.pc.AskingCommit? && CommitQuiet(w))
    ensures Inv(c, NextQuestion(w))
  {
    if w.pc.AskingInline? {
      var w' := NextQuestion(w);
      assert forall r: Request :: Active(w', r) <==> Active(w, r);
      SameServer(c, w, w');
    } else {
      KeepAfterQueries(c, w);
    }
  }

  lemma KeepThrow(c: Config, w: World)
    requires Sound(c) && Inv(c, w)
    requires Live(w.pc) && !w.pc.Saving?
    requires w.outstanding.Nothing?
    ensures Inv(c, w.(pc := Throwing))
  {
    var w' := w.(pc := Throwing);
    assert forall r: Request :: Active(w', r) <==> Active(w, r);
    SameServer(c, w, w');
  }

  lemma KeepAskSession(c: Config, w: World)
    requires Sound(c) && Inv(c, w) && Enabled(c, w, AskSession)
    ensures Inv(c, Apply(c, w, AskSession))
  {
    var w' := Apply(c, w, AskSession);
    assert forall r: Request :: Active(w', r) <==> Active(w, r);
    SameServer(c, w, w');
  }

  lemma KeepFindNoSession(c: Config, w: World)
    requires Sound(c) && Inv(c, w) && Enabled(c, w, FindNoSession)
    ensures Inv(c, Apply(c, w, FindNoSession))
  {
    var w' := Apply(c, w, FindNoSession);
    assert forall r: Request :: Active(w', r) <==> Active(w, r);
    SameServer(c, w, w');
  }

  /** Every path of a complete `done` list is staged, so the session is the manifest. */
  lemma CompleteIsManifest(c: Config, s: Server, v: nat)
    requires c.Valid() && SessionsAgree(c, s) && v < |s.sessions|
    requires forall k :: 0 <= k < |c.files| ==> c.files[k].path in s.sessions[v].files
    ensures s.sessions[v].files == Manifest(c)
  {
    forall p | p in Manifest(c)
      ensures p in s.sessions[v].files
    {
      ContentFrom(c.files, p);
    }
  }

  lemma {:induction false} ContentFrom(files: seq<File>, p: string)
    requires p in Content(files)
    ensures exists i :: 0 <= i < |files| && files[i].path == p
  {
    var last := |files| - 1;
    if files[last].path != p {
      ContentFrom(files[..last], p);
      var i :| 0 <= i < last && files[..last][i].path == p;
      assert files[i].path == p;
    }
  }

  lemma KeepSend(c: Config, w: World)
    requires Sound(c) && Inv(c, w)
    requires w.pc.SendingInline? || w.pc.SendingStart? || (w.pc.SendingCommit? && w.journal.versionId.Some?)
    ensures Inv(c, SendStep(w))
  {
    KeepSendServer(c, w);
    KeepSendClient(c, w);
  }

  lemma KeepSendClient(c: Config, w: World)
    requires Sound(c) && Inv(c, w)
    requires w.pc.SendingInline? || w.pc.SendingStart? || (w.pc.SendingCommit? && w.journal.versionId.Some?)
    ensures ClientInv(c, SendStep(w))
  {
    var w' := SendStep(w);
    assert forall r: Request :: Active(w', r) ==> Active(w, r) || w'.outstanding == InFlight(r);
  }

  lemma KeepSendServer(c: Config, w: World)
    requires Sound(c) && Inv(c, w)
    requires w.pc.SendingInline? || w.pc.SendingStart? || (w.pc.SendingCommit? && w.journal.versionId.Some?)
    ensures ServerInv(c, SendStep(w))
  {
    var w' := SendStep(w);
    if w.pc.SendingCommit? {
      var v := w.journal.versionId.value;
      if w.server.sessions[v].open {
        CompleteIsManifest(c, w.server, v);
      }
    }
    assert forall r: Request :: Active(w', r) ==> Active(w, r) || w'.outstanding == InFlight(r);
  }

  /** The reply of the one-shot request, of the opening, of the commit. */
  lemma KeepReceiveInline(c: Config, w: World)
    requires Sound(c) && Inv(c, w) && w.pc.AwaitingInline? && w.outstanding.Answered?
    ensures ClientInv(c, AfterReply(w, w.outstanding.reply))
  {
    var w' := AfterReply(w, w.outstanding.reply);
    assert forall r: Request :: Active(w', r) <==> Active(w, r);
  }

  lemma KeepReceiveStart(c: Config, w: World)
    requires Sound(c) && Inv(c, w) && w.pc.AwaitingStart? && w.outstanding.Answered?
    ensures ClientInv(c, AfterReply(w, w.outstanding.reply))
  {
    var w' := AfterReply(w, w.outstanding.reply);
    assert forall r: Request :: Active(w', r) <==> Active(w, r);
  }

  lemma KeepReceiveCommit(c: Config, w: World)
    requires Sound(c) && Inv(c, w) && w.pc.AwaitingCommit? && w.outstanding.Answered?
    ensures ClientInv(c, AfterReply(w, w.outstanding.reply))
  {
    var w' := AfterReply(w, w.outstanding.reply);
    assert forall r: Request :: Active(w', r) <==> Active(w, r);
  }

  lemma ReceiveKeepsServer(c: Config, w: World)
    requires ServerInv(c, w) && (w.pc.AwaitingInline? || w.pc.AwaitingStart? || w.pc.AwaitingCommit?)
    requires w.outstanding.Answered?
    ensures ServerInv(c, AfterReply(w, w.outstanding.reply))
  {
    var w' := AfterReply(w, w.outstanding.reply);
    assert forall r: Request :: Active(w', r) <==> Active(w, r);
    SameServer(c, w, w');
  }

  lemma KeepReceive(c: Config, w: World)
    requires Sound(c) && Inv(c, w) && (w.pc.AwaitingInline? || w.pc.AwaitingStart? || w.pc.AwaitingCommit?)
    requires w.outstanding.Answered?
    ensures Inv(c, AfterReply(w, w.outstanding.reply))
  {
    ReceiveKeepsServer(c, w);
    if w.pc.AwaitingInline? {
      KeepReceiveInline(c, w);
    } else if w.pc.AwaitingStart? {
      KeepReceiveStart(c, w);
    } else {
      KeepReceiveCommit(c, w);
    }
  }

  lemma KeepAdvance(c: Config, w: World)
    requires Sound(c) && Inv(c, w) && w.pc.Uploading? && w.pc.index <= |c.files|
    ensures Inv(c, NextFile(c, w))
  {
    var w' := NextFile(c, w);
    assert forall r: Request :: Active(w', r) <==> Active(w, r);
    SameServer(c, w, w');
  }

  lemma KeepTransferServer(c: Config, w: World, e: PutEffect, acknowledged: bool)
    requires Sound(c) && Inv(c, w) && CanTransfer(c, w, e, acknowledged)
    ensures ServerInv(c, TransferStep(c, w, e, acknowledged))
  {
    var w' := TransferStep(c, w, e, acknowledged);
    ContentAt(c.files, w.pc.index);
    assert forall r: Request :: Active(w', r) <==> Active(w, r);
  }

  lemma KeepTransferClient(c: Config, w: World, e: PutEffect, acknowledged: bool)
    requires Sound(c) && Inv(c, w) && CanTransfer(c, w, e, acknowledged)
    ensures ClientInv(c, TransferStep(c, w, e, acknowledged))
  {
    var w' := TransferStep(c, w, e, acknowledged);
    assert forall r: Request :: Active(w', r) <==> Active(w, r);
  }

  lemma KeepTransfer(c: Config, w: World, e: PutEffect, acknowledged: bool)
    requires Sound(c) && Inv(c, w) && CanTransfer(c, w, e, acknowledged)
    ensures Inv(c, TransferStep(c, w, e, acknowledged))
  {
    KeepTransferServer(c, w, e, acknowledged);
    KeepTransferClient(c, w, e, acknowledged);
  }

  lemma KeepClaimServer(c: Config, w: World, q: Request)
    requires Sound(c) && Inv(c, w) && CanClaim(c, w, q)
    ensures ServerInv(c, ClaimStep(w, q))
  {
    var w' := ClaimStep(w, q);
    assert forall r: Request :: !r.PutFile? ==> (Active(w', r) <==> Active(w, r));
  }

  lemma KeepClaimClient(c: Config, w: World, q: Request)
    requires Sound(c) && Inv(c, w) && CanClaim(c, w, q)
    ensures ClientInv(c, ClaimStep(w, q))
  {
    var w' := ClaimStep(w, q);
    assert forall r: Request :: !r.PutFile? ==> (Active(w', r) <==> Active(w, r));
  }

  lemma KeepClaim(c: Config, w: World, q: Request)
    requires Sound(c) && Inv(c, w) && CanClaim(c, w, q)
    ensures Inv(c, ClaimStep(w, q))
  {
    KeepClaimServer(c, w, q);
    KeepClaimClient(c, w, q);
  }

  lemma KeepRefuse(c: Config, w: World, reply: Reply)
    requires Sound(c) && Inv(c, w) && Enabled(c, w, Refuse(reply))
    ensures Inv(c, w.(outstanding := Answered(reply)))
  {
    var w' := w.(outstanding := Answered(reply));
    assert forall r: Request :: Active(w', r) ==> Active(w, r);
  }

  lemma KeepDrop(c: Config, w: World, q: Request)
    requires Sound(c) && Inv(c, w)
    ensures Inv(c, w.(late := w.late - {q}))
  {
    var w' := w.(late := w.late - {q});
    assert forall r: Request :: Active(w', r) ==> Active(w, r);
  }

  lemma KeepReplay(c: Config, w: World)
    requires Sound(c) && Inv(c, w) && CanReplay(w)
    ensures Inv(c, ReplayStep(w))
  {
    var w' := ReplayStep(w);
    assert forall r: Request :: Active(w', r) ==> Active(w, r);
  }

  lemma KeepEnqueue(c: Config, w: World, k: Key)
    requires Sound(c) && Inv(c, w) && c.asyncPackage && HasWorker(w.server, k) && k.CommitKey?
    ensures Inv(c, Settle(w, k, Accepted))
  {
    var w' := Settle(w, k, Accepted);
    assert forall r: Request :: Active(w', r) ==> Active(w, r);
  }

  lemma KeepExpireServer(c: Config, w: World, v: nat)
    requires Sound(c) && Inv(c, w) && v < |w.server.sessions|
    ensures ServerInv(c, ExpireStep(w, v))
  {
    var w' := ExpireStep(w, v);
    assert forall r: Request :: Active(w', r) ==> Active(w, r);
  }

  lemma KeepExpireClient(c: Config, w: World, v: nat)
    requires Sound(c) && Inv(c, w) && v < |w.server.sessions|
    ensures ClientInv(c, ExpireStep(w, v))
  {
    var w' := ExpireStep(w, v);
    assert forall r: Request :: Active(w', r) ==> Active(w, r);
  }

  lemma KeepExpireSession(c: Config, w: World, v: nat)
    requires Sound(c) && Inv(c, w) && v < |w.server.sessions|
    ensures Inv(c, ExpireStep(w, v))
  {
    KeepExpireServer(c, w, v);
    KeepExpireClient(c, w, v);
  }

  lemma KeepDeleteArtifact(c: Config, w: World, id: nat)
    requires Sound(c) && Inv(c, w)
    ensures Inv(c, DeleteStep(w, id))
  {
    var w' := DeleteStep(w, id);
    assert forall r: Request :: Active(w', r) ==> Active(w, r);
  }

  /** How a row moves without taking effect: no worker appears, and what is done stays done or becomes a tombstone. */
  ghost predicate Quieter(o: Operation, o': Operation) {
    && (o'.Running? || o'.Lapsed? || o'.Stale? ==> (o.Running? || o.Lapsed? || o.Stale?) && o'.request == o.request)
    && (o'.Done? ==> o == o')
    && (o.Done? || o.Expired? ==> o' == o || o'.Expired?)
  }

  /** `w'` differs from `w` in the row of `k`, and a client whose worker is gone is refused. */
  ghost predicate RowMoves(w: World, w': World, k: Key) {
    && k in w.server.operations && k in w'.server.operations
    && w' == w.(server := w'.server, outstanding := w'.outstanding)
    && w'.server == SetOperation(w.server, k, w'.server.operations[k])
    && Quieter(w.server.operations[k], w'.server.operations[k])
    && (w'.outstanding == w.outstanding || (w'.outstanding == Answered(Refused) && MineAtServer(w, k)))
    && (MineAtServer(w, k) && !HasWorker(w'.server, k) ==> w'.outstanding == Answered(Refused))
    && (w'.server.operations[k].Lapsed? ==> !Live(w.pc))
  }

  lemma RowMovesQuietly(c: Config, w: World, w': World, k: Key)
    requires Inv(c, w) && RowMoves(w, w', k)
    ensures forall r: Request :: Active(w', r) ==> Active(w, r)
    ensures TableAgrees(c, w'.server)
  {
  }

  lemma RowKeepsServer(c: Config, w: World, w': World, k: Key)
    requires Inv(c, w) && RowMoves(w, w', k)
    ensures ServerInv(c, w')
  {
    RowMovesQuietly(c, w, w', k);
  }

  lemma RowKeepsClient(c: Config, w: World, w': World, k: Key)
    requires Inv(c, w) && RowMoves(w, w', k)
    ensures ClientInv(c, w')
  {
    RowMovesQuietly(c, w, w', k);
  }

  /** Every such move keeps the invariant. */
  lemma KeepRow(c: Config, w: World, w': World, k: Key)
    requires Inv(c, w) && RowMoves(w, w', k)
    ensures Inv(c, w')
  {
    RowKeepsServer(c, w, w', k);
    RowKeepsClient(c, w, w', k);
  }

  lemma KeepGiveUp(c: Config, w: World, k: Key)
    requires Sound(c) && Inv(c, w) && HasWorker(w.server, k)
    ensures Inv(c, GiveUpStep(w, k))
  {
    KeepRow(c, w, GiveUpStep(w, k), k);
  }

  lemma KeepLapse(c: Config, w: World, k: Key)
    requires Sound(c) && Inv(c, w) && Enabled(c, w, Lapse(k))
    ensures Inv(c, LapseStep(w, k))
  {
    KeepRow(c, w, LapseStep(w, k), k);
  }

  lemma KeepRenew(c: Config, w: World, k: Key)
    requires Sound(c) && Inv(c, w) && Enabled(c, w, Renew(k))
    ensures Inv(c, RenewStep(w, k))
  {
    KeepRow(c, w, RenewStep(w, k), k);
  }

  lemma KeepSweep(c: Config, w: World, k: Key)
    requires Sound(c) && Inv(c, w) && Enabled(c, w, Sweep(k))
    ensures Inv(c, SweepStep(w, k))
  {
    KeepRow(c, w, SweepStep(w, k), k);
  }

  lemma KeepRetire(c: Config, w: World, k: Key)
    requires Sound(c) && Inv(c, w) && k in w.server.operations
    ensures Inv(c, RetireStep(w, k))
  {
    KeepRow(c, w, RetireStep(w, k), k);
  }

  lemma KeepInlineTable(c: Config, w: World, k: Key)
    requires TableAgrees(c, w.server) && SessionsAgree(c, w.server)
    requires CanFinish(w, k) && w.server.operations[k].request.PostInline?
    ensures TableAgrees(c, WorkStep(c, w, k).server) && SessionsAgree(c, WorkStep(c, w, k).server)
  {
    var s := w.server;
    PublicationAppended(c, s, Done(|s.published|), Publication(k, None, Manifest(c)), s.sessions);
    PublicationAppended(c, s, Expired, Publication(k, None, Manifest(c)), s.sessions);
  }

  /** A publication of the manifest under a key that had a worker, whose row is over. */
  lemma PublicationAppended(c: Config, s: Server, o: Operation, p: Publication, sessions: seq<Session>)
    requires TableAgrees(c, s) && HasWorker(s, p.key) && !p.key.StartKey? && p.content == Manifest(c)
    requires (o == Done(|s.published|) || o == Expired) && |sessions| == |s.sessions|
    ensures TableAgrees(c, SetOperation(s, p.key, o).(published := s.published + [p], sessions := sessions))
  {
  }

  lemma KeepInlineServer(c: Config, w: World, k: Key)
    requires Sound(c) && Inv(c, w) && CanFinish(w, k) && w.server.operations[k].request.PostInline?
    ensures ServerInv(c, WorkStep(c, w, k))
  {
    var w' := WorkStep(c, w, k);
    KeepInlineTable(c, w, k);
    assert forall r: Request :: Active(w', r) ==> Active(w, r);
    assert CommitsAgree(c, w');
  }

  lemma KeepInlineClient(c: Config, w: World, k: Key)
    requires Sound(c) && Inv(c, w) && CanFinish(w, k) && w.server.operations[k].request.PostInline?
    ensures ClientInv(c, WorkStep(c, w, k))
  {
    var w' := WorkStep(c, w, k);
    assert forall r: Request :: Active(w', r) ==> Active(w, r);
  }

  lemma KeepStartTable(c: Config, w: World, k: Key)
    requires Sound(c) && Inv(c, w) && CanFinish(w, k) && w.server.operations[k].request.PostStart?
    ensures TableAgrees(c, WorkStep(c, w, k).server) && SessionsAgree(c, WorkStep(c, w, k).server)
  {
  }

  lemma KeepStartServer(c: Config, w: World, k: Key)
    requires Sound(c) && Inv(c, w) && CanFinish(w, k) && w.server.operations[k].request.PostStart?
    ensures ServerInv(c, WorkStep(c, w, k))
  {
    var w' := WorkStep(c, w, k);
    KeepStartTable(c, w, k);
    assert forall r: Request :: Active(w', r) ==> Active(w, r);
  }

  lemma KeepStartClient(c: Config, w: World, k: Key)
    requires Sound(c) && Inv(c, w) && CanFinish(w, k) && w.server.operations[k].request.PostStart?
    ensures ClientInv(c, WorkStep(c, w, k))
  {
    var w' := WorkStep(c, w, k);
    assert forall r: Request :: Active(w', r) ==> Active(w, r);
    KeepStartQuiet(c, w, k);
    KeepStartOutstanding(c, w, k);
  }

  lemma KeepStartQuiet(c: Config, w: World, k: Key)
    requires Sound(c) && Inv(c, w) && CanFinish(w, k) && w.server.operations[k].request.PostStart?
    ensures CommitQuiet(w) ==> CommitQuiet(WorkStep(c, w, k))
    ensures InlineQuiet(w) ==> InlineQuiet(WorkStep(c, w, k))
  {
    var w' := WorkStep(c, w, k);
    assert forall r: Request :: Active(w', r) ==> Active(w, r);
  }

  lemma KeepStartOutstanding(c: Config, w: World, k: Key)
    requires Sound(c) && Inv(c, w) && CanFinish(w, k) && w.server.operations[k].request.PostStart?
    ensures OutstandingAgrees(WorkStep(c, w, k))
  {
    KeepStartQuiet(c, w, k);
  }

  lemma KeepCommitTable(c: Config, w: World, k: Key)
    requires Sound(c) && Inv(c, w) && CanFinish(w, k) && w.server.operations[k].request.PostCommit?
    ensures TableAgrees(c, WorkStep(c, w, k).server) && SessionsAgree(c, WorkStep(c, w, k).server)
  {
    var s, r := w.server, w.server.operations[k].request;
    var sessions := s.sessions[r.versionId := s.sessions[r.versionId].(open := false)];
    assert Active(w, r) && KeyOf(r) == k;
    var p := Publication(k, Some(r.versionId), s.sessions[r.versionId].files);
    PublicationAppended(c, s, Done(|s.published|), p, sessions);
    PublicationAppended(c, s, Expired, p, sessions);
  }

  lemma KeepCommitServer(c: Config, w: World, k: Key)
    requires Sound(c) && Inv(c, w) && CanFinish(w, k) && w.server.operations[k].request.PostCommit?
    ensures ServerInv(c, WorkStep(c, w, k))
  {
    var w' := WorkStep(c, w, k);
    KeepCommitTable(c, w, k);
    assert forall r: Request :: Active(w', r) ==> Active(w, r);
    assert CommitsAgree(c, w');
  }

  lemma KeepCommitClient(c: Config, w: World, k: Key)
    requires Sound(c) && Inv(c, w) && CanFinish(w, k) && w.server.operations[k].request.PostCommit?
    ensures ClientInv(c, WorkStep(c, w, k))
  {
    var w' := WorkStep(c, w, k);
    assert forall r: Request :: Active(w', r) ==> Active(w, r);
  }

  lemma KeepWork(c: Config, w: World, k: Key)
    requires Sound(c) && Inv(c, w) && CanFinish(w, k)
    ensures Inv(c, WorkStep(c, w, k))
  {
    match w.server.operations[k].request
    case PostInline => KeepInlineServer(c, w, k); KeepInlineClient(c, w, k);
    case PostStart(_) => KeepStartServer(c, w, k); KeepStartClient(c, w, k);
    case PostCommit(_, _) => KeepCommitServer(c, w, k); KeepCommitClient(c, w, k);
  }

  lemma KeepLandPut(c: Config, w: World, q: Request, e: PutEffect)
    requires Sound(c) && Inv(c, w) && CanLand(c, w, q, e)
    ensures Inv(c, LandStep(c, w, q, e))
  {
    var w' := LandStep(c, w, q, e);
    ContentAt(c.files, q.index);
    assert forall r: Request :: Active(w', r) ==> Active(w, r);
  }
}
