/**
 The client of recoverable publication in the form the source has: an object that updates
 its journal fields step by step, saves them, and talks to a server that may answer, fail
 or not be heard, while it may itself be killed between any two steps. Every execution is
 a run of the state machine in module Publishing, so the theorems about runs hold for it.
 */
module Publisher {
  import opened Prelude
  import opened Publishing
  import opened PublishingSafety
  import opened PublishingTheorems

  /** `Stopped`: the client was killed, or an error was recorded and rethrown. */
  datatype Outcome<+T> = Ok(value: T) | Stopped
  {
    predicate IsFailure() { Stopped? }

    function PropagateFailure<U>(): Outcome<U>
      requires Stopped?
    {
      Stopped
    }

    function Extract(): T
      requires Ok?
    {
      value
    }
  }

  /** The same for steps without a result. */
  datatype Progress = Going | Halted
  {
    predicate IsFailure() { Halted? }

    function PropagateFailure<U>(): Outcome<U>
      requires Halted?
    {
      Outcome.Stopped
    }
  }

  /** What the rest of the world does never touches the client. */
  lemma ServerLeavesTheClient(c: Config, w: World, a: Action)
    requires Enabled(c, w, a) && !ByTheClient(a)
    ensures
      var w' := Apply(c, w, a);
      && w'.pc == w.pc && w'.journal == w.journal && w'.inline == w.inline && w'.disk == w.disk
      && (w.outstanding.Nothing? ==> w'.outstanding.Nothing?)
  {
  }

  class Publisher {
    const c: Config

    // the journal object of the running client
    var generation: nat
    var versionId: Option<nat>
    var done: seq<string>
    var inlineAttempted: bool
    var commitAttempted: bool
    var result: Option<nat>

    // the disk, the network and the server
    var w: World
    ghost var trail: seq<Action>

    constructor (c: Config)
      requires c.Valid()
      ensures this.c == c && Linked() && w == NEW_WORLD && trail == []
    {
      this.c := c;
      generation, versionId, done := 0, None, [];
      inlineAttempted, commitAttempted, result := false, false, None;
      w, trail := NEW_WORLD, [];
    }

    function Memory(): Journal
      reads this
    {
      Journal(generation, versionId, done, inlineAttempted, commitAttempted, result)
    }

    /** The world is the end of the recorded run. */
    ghost predicate Linked()
      reads this
    {
      c.Valid() && Run(c, NEW_WORLD, trail) == Some(w)
    }

    ghost predicate Ready()
      reads this
    {
      Linked() && w.journal == Memory() && w.outstanding.Nothing?
    }

    // ----- single steps -----

    method Do(a: Action)
      requires Linked() && Enabled(c, w, a)
      modifies this`w, this`trail
      ensures Linked() && w == Apply(c, old(w), a) && trail == old(trail) + [a]
    {
      RunOneMore(c, NEW_WORLD, trail, a);
      w, trail := Apply(c, w, a), trail + [a];
    }

    /** Any number of steps of the server and the network. */
    method Meanwhile()
      requires Linked()
      modifies this`w, this`trail
      ensures Linked() && old(trail) <= trail
      ensures w.pc == old(w.pc) && w.journal == old(w.journal) && w.inline == old(w.inline) && w.disk == old(w.disk)
      ensures old(w).outstanding.Nothing? ==> w.outstanding.Nothing?
    {
      var steps: nat := *;
      while steps > 0
        invariant Linked() && old(trail) <= trail
        invariant w.pc == old(w.pc) && w.journal == old(w.journal) && w.inline == old(w.inline) && w.disk == old(w.disk)
        invariant old(w).outstanding.Nothing? ==> w.outstanding.Nothing?
      {
        var a: Action := *;
        if !ByTheClient(a) && Enabled(c, w, a) {
          ServerLeavesTheClient(c, w, a);
          Do(a);
        }
        steps := steps - 1;
      }
    }

    /** An error that is recorded in the journal, or a kill. */
    method Die()
      requires Linked() && Live(w.pc)
      modifies this`w, this`trail
      ensures Linked() && old(trail) <= trail && w.pc.Off?
    {
      if * {
        Do(Fail);
      } else {
        Do(Crash);
      }
    }

    /** Replaces the journal on disk. */
    method Save() returns (r: Progress)
      requires Ready() && w.pc.Saving?
      modifies this`w, this`trail
      ensures Linked() && old(trail) <= trail
      ensures r.Halted? ==> w.pc.Off?
      ensures r.Going? ==> Ready() && w.pc == old(w).pc.next && w.disk == Some(Memory()) && w.inline == old(w).inline
    {
      Meanwhile();
      if * {
        Die();
        return Halted;
      }
      Do(Action.Save);
      return Going;
    }

    method AskPackage() returns (r: Outcome<PackageReply>)
      requires Ready() && (w.pc.AskingPackage? || w.pc.Waiting?)
      modifies this`w, this`trail
      ensures Linked() && old(trail) <= trail
      ensures r.Stopped? ==> w.pc.Off?
      ensures r.Ok? ==>
        && w.outstanding.Nothing? && w.inline == old(w).inline
        && w.pc == AfterPackage(old(w), r.value).pc && w.journal == AfterPackage(old(w), r.value).journal
    {
      Meanwhile();
      var reply: PackageReply := *;
      if !Enabled(c, w, Action.AskPackage(reply)) {
        Die();
        return Stopped;
      }
      Do(Action.AskPackage(reply));
      return Ok(reply);
    }

    method RetryPackage() returns (r: Outcome<bool>)
      requires Ready() && w.pc.RetryingPackage?
      modifies this`w, this`trail
      ensures Linked() && old(trail) <= trail
      ensures r.Stopped? ==> w.pc.Off?
      ensures r.Ok? ==> Ready() && w.inline == old(w).inline && w.pc == if r.value then Waiting(true) else AskingInline
    {
      Meanwhile();
      if * {
        Die();
        return Stopped;
      }
      var found: bool := *;
      Do(Action.RetryPackage(found));
      return Ok(found);
    }

    method AskOperation() returns (r: Outcome<Status>)
      requires Ready() && (w.pc.AskingInline? || w.pc.AskingCommit?)
      modifies this`w, this`trail
      ensures Linked() && old(trail) <= trail
      ensures r.Stopped? ==> w.pc.Off?
      ensures r.Ok? ==>
        && w.outstanding.Nothing? && w.inline == old(w).inline
        && w.pc == AfterStatus(old(w), r.value).pc && w.journal == AfterStatus(old(w), r.value).journal
    {
      Meanwhile();
      if * {
        Die();
        return Stopped;
      }
      var status := OperationStatus(c, w.server, Asked(w));
      Do(Action.AskOperation);
      return Ok(status);
    }

    /** The receipts of the session, if it is still open. */
    method AskSession() returns (r: Outcome<Option<Session>>)
      requires Ready() && w.pc.AskingSession?
      modifies this`w, this`trail
      ensures Linked() && old(trail) <= trail
      ensures r.Stopped? ==> w.pc.Off?
      ensures r.Ok? ==> w.outstanding.Nothing? && w.inline == old(w).inline
      ensures r.Ok? && r.value.Some? ==>
        w.pc == Uploading(0) && w.journal == Memory().(done := Keep(done, Staged(c, r.value.value)))
      ensures r.Ok? && r.value.None? ==> w.pc == Saving(SendingStart) && w.journal == Restarted(Memory())
    {
      Meanwhile();
      if Enabled(c, w, Action.AskSession) {
        var session := w.server.sessions[w.journal.versionId.value];
        Do(Action.AskSession);
        return Ok(Some(session));
      } else if Enabled(c, w, FindNoSession) {
        Do(FindNoSession);
        return Ok(None);
      }
      Die();
      return Stopped;
    }

    /** Sends one keyed POST and waits for its outcome. */
    method Post(ghost awaiting: Pc) returns (r: Outcome<Reply>)
      requires Ready()
      requires
        || (w.pc.SendingInline? && awaiting == AwaitingInline)
        || (w.pc.SendingStart? && awaiting == AwaitingStart)
        || (w.pc.SendingCommit? && awaiting == AwaitingCommit && versionId.Some?)
      modifies this`w, this`trail
      ensures Linked() && old(trail) <= trail
      ensures r.Stopped? ==> w.pc.Off?
      ensures r.Ok? ==>
        var w1 := old(w).(pc := awaiting);
        && w.outstanding.Nothing? && w.inline == old(w).inline
        && w.pc == AfterReply(w1, r.value).pc && w.journal == AfterReply(w1, r.value).journal
    {
      Do(Send);
      assert w.pc == awaiting;
      r := Await();
    }

    /** Waits for the reply to the request on its way, which may be lost. */
    method Await() returns (r: Outcome<Reply>)
      requires Linked() && (w.pc.AwaitingInline? || w.pc.AwaitingStart? || w.pc.AwaitingCommit?)
      modifies this`w, this`trail
      ensures Linked() && old(trail) <= trail
      ensures r.Stopped? ==> w.pc.Off?
      ensures r.Ok? ==>
        var w1 := AfterReply(old(w), r.value);
        w.outstanding.Nothing? && w.inline == old(w).inline && w.pc == w1.pc && w.journal == w1.journal
    {
      Meanwhile();
      if * {
        Die();
        return Stopped;
      }
      if w.outstanding.Answered? {
        var reply := w.outstanding.reply;
        Do(Receive);
        return Ok(reply);
      }
      if !w.outstanding.Nothing? {
        Do(LoseReply);
      }
      Die();
      return Stopped;
    }

    /** A PUT without a reply: the server may have begun it, or done it. */
    method LosePut()
      requires Ready() && w.pc.Putting? && w.pc.index < |c.files|
      modifies this`w, this`trail
      ensures Ready() && old(trail) <= trail && w.pc == old(w).pc && w.inline == old(w).inline
    {
      Meanwhile();
      var effect: PutEffect := *;
      if CanTransfer(c, w, effect, false) {
        Do(Transfer(effect, false));
      }
    }

    /** Streams one file, replaying the PUT after errors; nothing else is done to the session. */
    method PutFile() returns (r: Progress)
      requires Ready() && w.pc.Putting? && w.pc.index < |c.files|
      modifies this`w, this`trail
      ensures Linked() && old(trail) <= trail
      ensures r.Halted? ==> w.pc.Off?
      ensures r.Going? ==>
        && w.outstanding.Nothing? && w.inline == old(w).inline
        && w.pc == Saving(Uploading(old(w).pc.index + 1))
        && w.journal == Memory().(done := done + [c.files[old(w).pc.index].path])
    {
      var attempts: nat := *;
      while attempts > 0
        invariant Ready() && old(trail) <= trail && w.pc == old(w).pc && w.inline == old(w).inline
      {
        LosePut();
        attempts := attempts - 1;
      }
      Meanwhile();
      if CanTransfer(c, w, Stored, true) {
        Do(Transfer(Stored, true));
        return Going;
      }
      Die();
      return Halted;
    }

    // ----- the journal-driven upload -----

    /** Takes over the journal of the previous run, or starts one, and saves it. */
    method Begin(inline: bool) returns (r: Progress)
      requires Linked() && !Live(w.pc) && Settled(c, w)
      modifies this
      ensures Linked() && old(trail) <= trail
      ensures r.Halted? ==> w.pc.Off?
      ensures r.Going? ==> Ready() && w.inline == inline && w.pc == FirstQuestion(c, Memory())
    {
      Do(Start(inline));
      var j := w.journal;
      generation, versionId, done := j.generation, j.versionId, j.done;
      inlineAttempted, commitAttempted, result := j.inlineAttempted, j.commitAttempted, j.result;
      r := Save();
    }

    method Throw() returns (r: Outcome<nat>)
      requires Linked() && Live(w.pc)
      modifies this`w, this`trail
      ensures Linked() && old(trail) <= trail && r.Stopped? && w.pc.Off?
    {
      Die();
      return Stopped;
    }

    /** Stores the result and reports it. */
    method Conclude(id: nat) returns (r: Outcome<nat>)
      requires Linked() && w.outstanding.Nothing?
      requires w.pc == Saving(Returned(id)) && w.journal == Memory().(result := Some(id))
      modifies this
      ensures Linked() && old(trail) <= trail
      ensures r.Stopped? ==> w.pc.Off?
      ensures r.Ok? ==> r.value == id && w.pc == Returned(id) && w.disk.Some? && w.disk.value.result == Some(id)
    {
      result := Some(id);
      :- Save();
      return Ok(id);
    }

    /** Polls a package job to its end. `None` when a resumed job is no longer known. */
    method WaitForPackage(resumed: bool) returns (r: Outcome<Option<nat>>)
      requires Ready() && w.pc == Waiting(resumed)
      modifies this
      ensures Linked() && old(trail) <= trail
      ensures r.Stopped? ==> w.pc.Off?
      ensures r.Ok? ==> w.inline == old(w).inline
      ensures r.Ok? && r.value.None? ==> Ready() && w.pc == AskingInline
      ensures r.Ok? && r.value.Some? ==>
        w.pc == Returned(r.value.value) && w.disk.Some? && w.disk.value.result == r.value
    {
      var polls: nat := *;
      while polls > 0
        invariant Ready() && old(trail) <= trail && w.pc == Waiting(resumed) && w.inline == old(w).inline
      {
        var reply :- AskPackage();
        match reply {
          case CompletedJob(id) =>
            ghost var inline := w.inline;
            result := Some(id);
            :- Save();
            return Ok(Some(id));
          case NoJob =>
            if resumed {
              return Ok(None);
            }
            var _ := Throw();
            return Stopped;
          case FailedJob(_) =>
            var _ := Throw();
            return Stopped;
          case Busy =>
        }
        polls := polls - 1;
      }
      Die(); // still polling when the process ends
      return Stopped;
    }

    /** The status of a package whose upload had finished before. `None`: ask for the operations. */
    method RecoverPackage() returns (r: Outcome<Option<nat>>)
      requires Ready() && w.pc.AskingPackage?
      modifies this
      ensures Linked() && old(trail) <= trail
      ensures r.Stopped? ==> w.pc.Off?
      ensures r.Ok? ==> w.inline == old(w).inline
      ensures r.Ok? && r.value.None? ==> Ready() && w.pc == AskingInline
      ensures r.Ok? && r.value.Some? ==>
        w.pc == Returned(r.value.value) && w.disk.Some? && w.disk.value.result == r.value
    {
      var job :- AskPackage();
      match job {
        case NoJob =>
          return Ok(None);
        case CompletedJob(id) =>
          result := Some(id);
          :- Save();
          return Ok(Some(id));
        case Busy =>
          r := WaitForPackage(true);
        case FailedJob(retryable) =>
          if retryable {
            var found :- RetryPackage();
            if !found {
              return Ok(None);
            }
          }
          r := WaitForPackage(true);
      }
    }

    /** Uploads a file, unless the journal lists it as finished, and lists it. */
    method UploadFile(i: nat) returns (r: Progress)
      requires Ready() && i < |c.files| && w.pc == Uploading(i) && versionId.Some?
      modifies this
      ensures Linked() && old(trail) <= trail
      ensures r.Halted? ==> w.pc.Off?
      ensures r.Going? ==> Ready() && w.pc == Uploading(i + 1) && versionId.Some? && c.files[i].path in done
    {
      Do(Advance);
      if c.files[i].path in done {
        return Going;
      }
      r := PutFile();
      if r.Going? {
        r := ListFile(i);
      }
    }

    /** A file that was transferred goes on the list of the finished ones. */
    method ListFile(i: nat) returns (r: Progress)
      requires Linked() && w.outstanding.Nothing? && i < |c.files| && w.pc == Saving(Uploading(i + 1))
      requires w.journal == Memory().(done := done + [c.files[i].path]) && versionId.Some?
      modifies this
      ensures Linked() && old(trail) <= trail
      ensures r.Halted? ==> w.pc.Off?
      ensures r.Going? ==> Ready() && w.pc == Uploading(i + 1) && versionId.Some? && c.files[i].path in done
    {
      done := done + [c.files[i].path];
      r := Save();
    }

    /** Uploads every file that the journal does not list as finished. */
    method UploadFiles() returns (r: Progress)
      requires Ready() && w.pc == Uploading(0) && versionId.Some?
      modifies this
      ensures Linked() && old(trail) <= trail
      ensures r.Halted? ==> w.pc.Off?
      ensures r.Going? ==>
        && w.outstanding.Nothing? && w.pc == Saving(SendingCommit) && versionId.Some?
        && w.journal == Memory().(commitAttempted := true)
    {
      var i := 0;
      while i < |c.files|
        invariant 0 <= i <= |c.files|
        invariant Ready() && old(trail) <= trail && w.pc == Uploading(i) && versionId.Some?
      {
        r := UploadFile(i);
        if r.Halted? {
          return;
        }
        i := i + 1;
      }
      Do(Advance);
      return Going;
    }

    /** Keeps the session of an earlier run if the server still has it; otherwise a new generation begins. */
    method ResumeSession() returns (r: Progress)
      requires Ready() && w.pc.AskingSession? && versionId.Some?
      modifies this
      ensures Linked() && old(trail) <= trail
      ensures r.Halted? ==> w.pc.Off?
      ensures r.Going? ==> Ready() && if versionId.Some? then w.pc == Uploading(0) else w.pc.SendingStart?
    {
      var asked := AskSession();
      if asked.Stopped? {
        return Halted;
      }
      var session := asked.value;
      if session.Some? {
        done := Keep(done, Staged(c, session.value));
        return Going;
      }
      versionId, done, commitAttempted, generation := None, [], false, generation + 1;
      r := Save();
    }

    method OpenSession() returns (r: Progress)
      requires Ready() && w.pc.SendingStart? && versionId.None?
      modifies this
      ensures Linked() && old(trail) <= trail
      ensures r.Halted? ==> w.pc.Off?
      ensures r.Going? ==> Ready() && w.pc == Uploading(0) && versionId.Some?
    {
      var reply := Post(AwaitingStart);
      if reply.Stopped? {
        return Halted;
      }
      if !reply.value.Opened? {
        Die();
        return Halted;
      }
      versionId := Some(reply.value.versionId);
      r := Save();
    }

    method CommitSession() returns (r: Outcome<nat>)
      requires Ready() && w.pc.SendingCommit? && versionId.Some?
      modifies this
      ensures Linked() && old(trail) <= trail
      ensures r.Stopped? ==> w.pc.Off?
      ensures r.Ok? ==> w.pc == Returned(r.value) && w.disk.Some? && w.disk.value.result == Some(r.value)
    {
      var committed :- Post(AwaitingCommit);
      match committed {
        case Published(id) =>
          r := Conclude(id);
        case Accepted =>
          var found :- WaitForPackage(false);
          if found.None? {
            r := Throw();
            return;
          }
          return Ok(found.value);
        case _ =>
          r := Throw();
      }
    }

    /** Resumes the upload session, or opens one. */
    method EnterSession() returns (r: Progress)
      requires Ready() && w.pc == EnterChunked(Memory())
      modifies this
      ensures Linked() && old(trail) <= trail
      ensures r.Halted? ==> w.pc.Off?
      ensures r.Going? ==> Ready() && w.pc == Uploading(0) && versionId.Some?
    {
      r := Going;
      if versionId.Some? {
        r := ResumeSession();
      }
      if r.Going? && versionId.None? {
        r := OpenSession();
      }
    }

    /** Resumes or opens the upload session, fills it and commits it. */
    method Chunked() returns (r: Outcome<nat>)
      requires Ready() && w.pc == EnterChunked(Memory())
      modifies this
      ensures Linked() && old(trail) <= trail
      ensures r.Stopped? ==> w.pc.Off?
      ensures r.Ok? ==> w.pc == Returned(r.value) && w.disk.Some? && w.disk.value.result == Some(r.value)
    {
      var id: Outcome<nat>;
      :- EnterSession();
      :- UploadFiles();
      commitAttempted := true;
      :- Save();
      id := CommitSession();
      return id;
    }

    /** One status query. `Some(id)`: already published; `None`: go on. */
    method Recovered() returns (r: Outcome<Option<nat>>)
      requires Ready() && (w.pc.AskingInline? || w.pc.AskingCommit?)
      modifies this
      ensures Linked() && old(trail) <= trail
      ensures r.Stopped? ==> w.pc.Off?
      ensures r.Ok? ==> w.inline == old(w).inline
      ensures r.Ok? && r.value.None? ==>
        && w.outstanding.Nothing? && Memory() == old(Memory())
        && w.pc == NextQuestion(old(w)).pc && w.journal == NextQuestion(old(w)).journal
      ensures r.Ok? && r.value.Some? ==>
        w.pc == Returned(r.value.value) && w.disk.Some? && w.disk.value.result == r.value
    {
      ghost var w0 := w;
      var attempted := if w.pc.AskingInline? then inlineAttempted else commitAttempted;
      var status :- AskOperation();
      match status {
        case Completed(id) =>
          result := Some(id);
          :- Save();
          return Ok(Some(id));
        case NoRoute =>
          if attempted {
            var _ := Throw();
            return Stopped;
          }
          return Ok(None);
        case NotFound => return Ok(None);
        case Retryable => return Ok(None);
        case _ =>
          var _ := Throw();
          return Stopped;
      }
    }

    /**
     One run of `uploadWithRecovery`. Whatever happens is a run of the machine; a client that
     returns has stored the result it reports.
     */
    method UploadWithRecovery(inline: bool) returns (r: Outcome<nat>)
      requires Linked() && !Live(w.pc) && Settled(c, w)
      modifies this
      ensures Linked() && old(trail) <= trail && !Live(w.pc)
      ensures r.Ok? ==> w.pc == Returned(r.value) && w.disk.Some? && w.disk.value.result == Some(r.value)
      ensures Sound(c) ==> |w.server.published| <= 1
      ensures Sound(c) && r.Ok? ==>
        r.value == 0 && |w.server.published| == 1 && w.server.published[0].content == Manifest(c)
    {
      r := Attempt(inline);
      if Sound(c) {
        NewWorldInv(c);
        RunKeepsInv(c, NEW_WORLD, trail);
        AtMostOne(c, w);
      }
    }

    /** The program in order: the journal, what an earlier run has published, and only then a publication. */
    method Attempt(inline: bool) returns (r: Outcome<nat>)
      requires Linked() && !Live(w.pc) && Settled(c, w)
      modifies this
      ensures Linked() && old(trail) <= trail && !Live(w.pc)
      ensures r.Ok? ==> w.pc == Returned(r.value) && w.disk.Some? && w.disk.value.result == Some(r.value)
    {
      var found: Option<nat> := None;
      :- Begin(inline);
      found :- AskEarlier();
      if found.Some? {
        return Ok(found.value);
      }
      r := PublishNew(inline);
    }

    /** Both status queries came back without a result. */
    ghost predicate PastQueries()
      reads this
    {
      var w' := AfterQueries(w.(journal := Memory()));
      w.outstanding.Nothing? && w.pc == w'.pc && w.journal == w'.journal
    }

    /** The package job and the two status queries. `Some(id)`: already published. */
    method AskEarlier() returns (r: Outcome<Option<nat>>)
      requires Ready() && w.pc == FirstQuestion(c, Memory())
      modifies this
      ensures Linked() && old(trail) <= trail
      ensures r.Stopped? ==> w.pc.Off?
      ensures r.Ok? && r.value.None? ==> PastQueries() && w.inline == old(w).inline
      ensures r.Ok? && r.value.Some? ==>
        w.pc == Returned(r.value.value) && w.disk.Some? && w.disk.value.result == r.value
    {
      var found: Option<nat> := None;
      if c.asyncPackage && versionId.Some? {
        found :- RecoverPackage();
        if found.Some? {
          return Ok(found);
        }
      }
      found :- Recovered();
      if found.Some? {
        return Ok(found);
      }
      r := Recovered();
    }

    method PublishNew(inline: bool) returns (r: Outcome<nat>)
      requires Linked() && PastQueries() && inline == w.inline
      modifies this
      ensures Linked() && old(trail) <= trail
      ensures r.Stopped? ==> w.pc.Off?
      ensures r.Ok? ==> w.pc == Returned(r.value) && w.disk.Some? && w.disk.value.result == Some(r.value)
    {
      if result.Some? {
        r := Throw();
        return;
      }
      if inline && versionId.None? {
        inlineAttempted := true;
        r := PublishInline();
      } else {
        r := Chunked();
      }
    }

    /** The one-shot request, or the upload after its structured rejection. */
    method PublishInline() returns (r: Outcome<nat>)
      requires Ready() && w.pc == Saving(SendingInline) && versionId.None?
      modifies this
      ensures Linked() && old(trail) <= trail
      ensures r.Stopped? ==> w.pc.Off?
      ensures r.Ok? ==> w.pc == Returned(r.value) && w.disk.Some? && w.disk.value.result == Some(r.value)
    {
      var reply: Reply;
      :- Save();
      reply :- Post(AwaitingInline);
      match reply {
        case Published(id) => r := Conclude(id);
        case TooLarge => r := Chunked();
        case _ => r := Throw();
      }
    }
  }

  lemma {:induction false} RunOneMore(c: Config, w: World, t: seq<Action>, a: Action)
    requires Run(c, w, t).Some? && Enabled(c, Run(c, w, t).value, a)
    ensures Run(c, w, t + [a]) == Some(Apply(c, Run(c, w, t).value, a))
    decreases |t|
  {
    if t == [] {
      var w' := Apply(c, w, a);
      assert ([] + [a])[1..] == [];
      assert Run(c, w', []) == Some(w');
    } else {
      assert (t + [a])[1..] == t[1..] + [a];
      RunOneMore(c, Apply(c, w, t[0]), t[1..], a);
    }
  }
}
