/**
 Recoverable publication (cli/src/publish.ts `uploadWithRecovery`, with the journal of
 cli/src/recovery.ts) as a state machine over one journal and one server.

 A `World` holds the journal on disk, the journal of the running client, that client's
 program counter, its outstanding request, the requests of dead clients that are still
 travelling, and the server's operation table, upload sessions and published artifacts.
 Every action is either one atomic step of the client, one step of the server, a lost
 reply or a crash; a run is any sequence of enabled actions.
 */
module Publishing {
  import opened Prelude

  /** One manifest entry. The SHA-256 stands for the content (hashing is taken as injective). */
  datatype File = File(path: string, bytes: nat, sha256: string)

  /**
   Three promises of the deployment. `alone`: no client starts on a journal while another one runs. `drained`: a dead
   client's requests are applied or lost before the next run starts. `leased`: no worker outlives its lease while a
   client runs.
   */
  datatype Config = Config(
    files: seq<File>, asyncPackage: bool, legacy: bool, alone: bool, drained: bool, leased: bool)
  {
    ghost predicate Valid() {
      && (forall i, j :: 0 <= i < j < |files| ==> files[i].path != files[j].path)
      && (legacy ==> !asyncPackage)
    }
  }

  /** A list of files as the content of a version. */
  function Content(files: seq<File>): map<string, File> {
    if files == [] then map[]
    else
      var last := |files| - 1;
      Content(files[..last])[files[last].path := files[last]]
  }

  function Manifest(c: Config): map<string, File> {
    Content(c.files)
  }

  datatype Journal = Journal(
    generation: nat,
    versionId: Option<nat>,
    done: seq<string>,
    inlineAttempted: bool,
    commitAttempted: bool,
    result: Option<nat>)

  const FRESH_JOURNAL := Journal(0, None, [], false, false, None)

  /** The operation keys `id:inline`, `id:start:g` and `id:commit:g`. */
  datatype Key = InlineKey | StartKey(generation: nat) | CommitKey(generation: nat)

  datatype Request =
    | PostInline
    | PostStart(generation: nat)
    | PostCommit(generation: nat, versionId: nat)
    | PutFile(versionId: nat, index: nat)

  predicate Publishes(r: Request) {
    r.PostInline? || r.PostCommit?
  }

  function KeyOf(r: Request): Key {
    match r
    case PostInline => InlineKey
    case PostStart(g) => StartKey(g)
    case PostCommit(g, _) => CommitKey(g)
    case PutFile(_, _) => InlineKey
  }

  /** `Refused` is every error other than the structured pre-publication 413, `TooLarge`. */
  datatype Reply = Published(id: nat) | Opened(versionId: nat) | Accepted | TooLarge | Refused

  /** The running client's outstanding POST. */
  datatype Outstanding = Nothing | InFlight(request: Request) | AtServer(request: Request) | Answered(reply: Reply)

  /**
   A row of the operation table; a key that was never claimed has no row. `Lapsed` has a worker that outlived its lease,
   `Stale` one that outlived the recovery window of the row; both can still work. `Released` has none.
   */
  datatype Operation =
    | Running(request: Request)
    | Lapsed(request: Request)
    | Stale(request: Request)
    | Released
    | Done(id: nat)
    | Expired

  datatype Session = Session(files: map<string, File>, open: bool)

  datatype Publication = Publication(key: Key, versionId: Option<nat>, content: map<string, File>)

  /** Session and publication ids are positions in their sequences. */
  datatype Server = Server(
    operations: map<Key, Operation>,
    sessions: seq<Session>,
    published: seq<Publication>,
    deleted: set<nat>)

  /** Program counter. `Saving(next)` is an unfinished journal save, `Throwing` an error on
      its way to the `catch` of `uploadWithRecovery`, `Off` a client that stopped. */
  datatype Pc =
    | Off
    | Returned(id: nat)
    | Throwing
    | Saving(next: Pc)
    | AskingPackage | RetryingPackage | Waiting(resumed: bool)
    | AskingInline | AskingCommit
    | SendingInline | AwaitingInline
    | AskingSession
    | SendingStart | AwaitingStart
    | Uploading(index: nat) | Putting(index: nat)
    | SendingCommit | AwaitingCommit

  predicate Live(pc: Pc) {
    !pc.Off? && !pc.Returned?
  }

  datatype World = World(
    disk: Option<Journal>,
    journal: Journal,
    inline: bool,
    pc: Pc,
    outstanding: Outstanding,
    late: set<Request>,
    server: Server)

  const NEW_SERVER := Server(map[], [], [], {})
  const NEW_WORLD := World(None, FRESH_JOURNAL, false, Off, Nothing, {}, NEW_SERVER)

  /** What an interrupted or finished PUT leaves on the server: the receipt is removed
      before the bytes are written and recorded again after them. */
  datatype PutEffect = Untouched | Cleared | Stored

  /** What the package status route can answer. */
  datatype PackageReply = NoJob | Busy | FailedJob(retryable: bool) | CompletedJob(id: nat)

  datatype Action =
    // the client
    | Start(inline: bool)
    | Overtake(inline: bool)
    | Save
    | Fail
    | Crash
    | AskPackage(package: PackageReply)
    | RetryPackage(found: bool)
    | AskOperation
    | AskSession
    | FindNoSession
    | Send
    | Receive
    | LoseReply
    | Advance
    | Transfer(effect: PutEffect, acknowledged: bool)
    // the server and the network
    | Claim(request: Request)
    | Refuse(reply: Reply)
    | Drop(request: Request)
    | Replay
    | Work(key: Key)
    | GiveUp(key: Key)
    | Enqueue(key: Key)
    | Lapse(key: Key)
    | Renew(key: Key)
    | Retire(key: Key)
    | Sweep(key: Key)
    | ExpireSession(versionId: nat)
    | DeleteArtifact(id: nat)
    | ServeLegacy(request: Request)
    | LandPut(request: Request, effect: PutEffect)

  // ----- the client's decisions -----

  function Loaded(disk: Option<Journal>): Journal {
    if disk.Some? then disk.value else FRESH_JOURNAL
  }

  function FirstQuestion(c: Config, j: Journal): Pc {
    if c.asyncPackage && j.versionId.Some? then AskingPackage else AskingInline
  }

  function EnterChunked(j: Journal): Pc {
    if j.versionId.Some? then AskingSession else SendingStart
  }

  /** After both status queries came back without a result. */
  function AfterQueries(w: World): World {
    if w.journal.result.Some? then w.(pc := Throwing)
    else if w.inline && w.journal.versionId.None? then
      w.(journal := w.journal.(inlineAttempted := true), pc := Saving(SendingInline))
    else w.(pc := EnterChunked(w.journal))
  }

  function Finish(w: World, id: nat): World {
    w.(journal := w.journal.(result := Some(id)), pc := Saving(Returned(id)))
  }

  datatype Status = NoRoute | NotFound | StillRunning | Retryable | Completed(id: nat) | Gone | TooOld

  function OperationStatus(c: Config, s: Server, k: Key): Status {
    if c.legacy then NoRoute
    else if k !in s.operations then NotFound
    else match s.operations[k]
      case Running(_) => StillRunning
      case Lapsed(_) => Retryable
      case Released => Retryable
      case Stale(_) => TooOld
      case Done(id) => if id in s.deleted then Gone else Completed(id)
      case Expired => TooOld
  }

  function Asked(w: World): Key
    requires w.pc.AskingInline? || w.pc.AskingCommit?
  {
    if w.pc.AskingInline? then InlineKey else CommitKey(w.journal.generation)
  }

  function AfterStatus(w: World, status: Status): World
    requires w.pc.AskingInline? || w.pc.AskingCommit?
  {
    var attempted := if w.pc.AskingInline? then w.journal.inlineAttempted else w.journal.commitAttempted;
    match status
    case Completed(id) => Finish(w, id)
    case NoRoute => if attempted then w.(pc := Throwing) else NextQuestion(w)
    case NotFound => NextQuestion(w)
    case Retryable => NextQuestion(w)
    case StillRunning => w.(pc := Throwing)
    case Gone => w.(pc := Throwing)
    case TooOld => w.(pc := Throwing)
  }

  function NextQuestion(w: World): World {
    if w.pc.AskingInline? then w.(pc := AskingCommit) else AfterQueries(w)
  }

  function AfterPackage(w: World, r: PackageReply): World {
    match r
    case CompletedJob(id) => Finish(w, id)
    case Busy => w.(pc := Waiting(!w.pc.Waiting? || w.pc.resumed))
    case FailedJob(retryable) =>
      if w.pc.AskingPackage? then w.(pc := if retryable then RetryingPackage else Waiting(true))
      else w.(pc := Throwing)
    case NoJob =>
      if w.pc.Waiting? && !w.pc.resumed then w.(pc := Throwing) else w.(pc := AskingInline)
  }

  /** A session the server no longer knows: the next generation starts from nothing. */
  function Restarted(j: Journal): Journal {
    j.(versionId := None, done := [], commitAttempted := false, generation := j.generation + 1)
  }

  /** The files of the manifest that a session holds with the local hash and size. */
  function Staged(c: Config, session: Session): set<string> {
    set p | p in session.files && p in Manifest(c) && session.files[p] == Manifest(c)[p]
  }

  function Keep(done: seq<string>, reported: set<string>): (kept: seq<string>)
    ensures forall p :: p in kept <==> p in done && p in reported
  {
    if done == [] then []
    else (if done[0] in reported then [done[0]] else []) + Keep(done[1..], reported)
  }

  function AfterReply(w: World, r: Reply): World
    requires w.pc.AwaitingInline? || w.pc.AwaitingStart? || w.pc.AwaitingCommit?
  {
    var w1 := w.(outstanding := Nothing);
    match r
    case Published(id) => if w.pc.AwaitingStart? then w1.(pc := Throwing) else Finish(w1, id)
    case Opened(v) =>
      if w.pc.AwaitingStart? then
        w1.(journal := w.journal.(versionId := Some(v)), pc := Saving(Uploading(0)))
      else w1.(pc := Throwing)
    case Accepted => w1.(pc := if w.pc.AwaitingCommit? then Waiting(false) else Throwing)
    case TooLarge => w1.(pc := if w.pc.AwaitingInline? then EnterChunked(w.journal) else Throwing)
    case Refused => w1.(pc := Throwing)
  }

  function NextFile(c: Config, w: World): World
    requires w.pc.Uploading? && w.pc.index <= |c.files|
  {
    var i := w.pc.index;
    if i == |c.files| then w.(journal := w.journal.(commitAttempted := true), pc := Saving(SendingCommit))
    else if c.files[i].path in w.journal.done then w.(pc := Uploading(i + 1))
    else w.(pc := Putting(i))
  }

  // ----- the server -----

  function Effect(s: Server, v: nat, f: File, e: PutEffect): Server
    requires v < |s.sessions|
  {
    var session := s.sessions[v];
    match e
    case Untouched => s
    case Cleared => s.(sessions := s.sessions[v := session.(files := session.files - {f.path})])
    case Stored => s.(sessions := s.sessions[v := session.(files := session.files[f.path := f])])
  }

  /** The business transaction of one POST succeeds only on an open session. */
  predicate CanWork(s: Server, r: Request) {
    match r
    case PostInline => true
    case PostStart(_) => true
    case PostCommit(_, v) => v < |s.sessions| && s.sessions[v].open
    case PutFile(_, _) => false
  }

  /** The id reported by the transaction: an upload session or a publication. */
  function NewId(s: Server, r: Request): nat {
    if r.PostStart? then |s.sessions| else |s.published|
  }

  function Success(s: Server, r: Request): Reply {
    if r.PostStart? then Opened(NewId(s, r)) else Published(NewId(s, r))
  }

  function Worked(c: Config, s: Server, r: Request): Server
    requires CanWork(s, r)
  {
    match r
    case PostInline => s.(published := s.published + [Publication(InlineKey, None, Manifest(c))])
    case PostStart(_) => s.(sessions := s.sessions + [Session(map[], true)])
    case PostCommit(g, v) =>
      s.(published := s.published + [Publication(CommitKey(g), Some(v), s.sessions[v].files)],
         sessions := s.sessions[v := s.sessions[v].(open := false)])
  }

  predicate MineAtServer(w: World, k: Key) {
    w.outstanding.AtServer? && KeyOf(w.outstanding.request) == k
  }

  function Settle(w: World, k: Key, r: Reply): World {
    if MineAtServer(w, k) then w.(outstanding := Answered(r)) else w
  }

  function SetOperation(s: Server, k: Key, o: Operation): Server {
    s.(operations := s.operations[k := o])
  }

  /** Some worker can still take effect under the key. */
  predicate HasWorker(s: Server, k: Key) {
    k in s.operations && (s.operations[k].Running? || s.operations[k].Lapsed? || s.operations[k].Stale?)
  }

  /** The first answer that a client's request under the key gets. */
  function Answer(w: World, k: Key): Outstanding {
    if MineAtServer(w, k) then Answered(Refused) else w.outstanding
  }

  /** What the deployment promises about the moment at which a run starts. */
  predicate Settled(c: Config, w: World) {
    && (c.drained ==> w.late == {})
    && (c.leased ==> forall k :: k in w.server.operations ==> !w.server.operations[k].Lapsed?)
  }

  // ----- steps and runs -----

  /** A client that dies leaves its unclaimed request, or its unfinished PUT, in the network. */
  function Abandoned(c: Config, w: World): set<Request> {
    if w.outstanding.InFlight? then w.late + {w.outstanding.request}
    else if w.pc.Putting? && w.journal.versionId.Some? then
      w.late + {PutFile(w.journal.versionId.value, w.pc.index)}
    else w.late
  }

  function StartStep(c: Config, w: World, inline: bool): World {
    var j := Loaded(w.disk);
    w.(journal := j, inline := inline, outstanding := Nothing, pc := Saving(FirstQuestion(c, j)))
  }

  /** The points from which a client can come to open or resume a session without saving its journal. */
  predicate Undecided(pc: Pc) {
    || pc.AskingPackage? || pc.RetryingPackage? || pc.Waiting? || pc.AskingInline? || pc.AskingCommit?
    || pc.SendingInline? || pc.AwaitingInline?
  }

  /** What a client can still send before its next save: what it is about to send, what is on its way, an opening, or
      a file of its session. */
  function Unsent(c: Config, w: World): set<Request> {
    var j, pc := w.journal, w.pc;
    (if w.outstanding.InFlight? then {w.outstanding.request} else {})
    + (if pc.SendingInline? then {PostInline} else {})
    + (if pc.SendingStart? || (Undecided(pc) && j.versionId.None?) then {PostStart(j.generation)} else {})
    + (if pc.SendingCommit? && j.versionId.Some? then {PostCommit(j.generation, j.versionId.value)} else {})
    + (if (pc.AskingSession? || pc.Uploading? || pc.Putting? || Undecided(pc)) && j.versionId.Some? then
         (set i: nat | i < |c.files| :: PutFile(j.versionId.value, i))
       else {})
  }

  /** A client takes the lock from one that still runs. The other one cannot save its journal any more, so that its
      next save ends it; until then it can send what it has not sent. */
  function OvertakeStep(c: Config, w: World, inline: bool): World {
    StartStep(c, w.(late := w.late + Unsent(c, w)), inline)
  }

  function StopStep(c: Config, w: World): World {
    w.(pc := Off, outstanding := Nothing, late := Abandoned(c, w))
  }

  function SendStep(w: World): World
    requires w.pc.SendingInline? || w.pc.SendingStart? || (w.pc.SendingCommit? && w.journal.versionId.Some?)
  {
    if w.pc.SendingInline? then w.(outstanding := InFlight(PostInline), pc := AwaitingInline)
    else if w.pc.SendingStart? then
      w.(outstanding := InFlight(PostStart(w.journal.generation)), pc := AwaitingStart)
    else
      w.(outstanding := InFlight(PostCommit(w.journal.generation, w.journal.versionId.value)), pc := AwaitingCommit)
  }

  predicate CanTransfer(c: Config, w: World, e: PutEffect, acknowledged: bool) {
    && w.pc.Putting? && w.pc.index < |c.files| && w.journal.versionId.Some?
    && w.journal.versionId.value < |w.server.sessions|
    && (e != Untouched ==> w.server.sessions[w.journal.versionId.value].open)
    && (acknowledged ==> e.Stored?)
  }

  function TransferStep(c: Config, w: World, e: PutEffect, acknowledged: bool): World
    requires CanTransfer(c, w, e, acknowledged)
  {
    var f := c.files[w.pc.index];
    var w1 := w.(server := Effect(w.server, w.journal.versionId.value, f, e));
    if acknowledged then
      w1.(journal := w.journal.(done := w.journal.done + [f.path]), pc := Saving(Uploading(w.pc.index + 1)))
    else w1
  }

  predicate CanClaim(c: Config, w: World, r: Request) {
    && !c.legacy && !r.PutFile?
    && (r in w.late || w.outstanding == InFlight(r))
    && (KeyOf(r) in w.server.operations ==>
          w.server.operations[KeyOf(r)].Released? || w.server.operations[KeyOf(r)].Lapsed?)
  }

  /** A worker that outlived its lease is superseded; its client is refused. */
  function ClaimStep(w: World, r: Request): World {
    w.(server := SetOperation(w.server, KeyOf(r), Running(r)),
       late := if w.outstanding == InFlight(r) then w.late else w.late - {r},
       outstanding := if w.outstanding == InFlight(r) then AtServer(r) else Answer(w, KeyOf(r)))
  }

  predicate CanReplay(w: World) {
    && w.outstanding.InFlight?
    && var k := KeyOf(w.outstanding.request);
       k in w.server.operations && w.server.operations[k].Done?
       && (k.StartKey? || w.server.operations[k].id !in w.server.deleted)
  }

  function ReplayStep(w: World): World
    requires CanReplay(w)
  {
    var k := KeyOf(w.outstanding.request);
    var id := w.server.operations[k].id;
    w.(outstanding := Answered(if k.StartKey? then Opened(id) else Published(id)))
  }

  predicate CanFinish(w: World, k: Key) {
    HasWorker(w.server, k) && CanWork(w.server, w.server.operations[k].request)
  }

  /** The publishing transaction of a worker, which also completes the row. */
  function WorkStep(c: Config, w: World, k: Key): World
    requires CanFinish(w, k)
  {
    var s, o := w.server, w.server.operations[k];
    var o' := if o.Stale? then Expired else Done(NewId(s, o.request));
    Settle(w.(server := SetOperation(Worked(c, s, o.request), k, o')), k, Success(s, o.request))
  }

  /** A worker ends without effect. */
  function GiveUpStep(w: World, k: Key): World
    requires HasWorker(w.server, k)
  {
    var o' := if w.server.operations[k].Stale? then Expired else Released;
    Settle(w.(server := SetOperation(w.server, k, o')), k, Refused)
  }

  function LapseStep(w: World, k: Key): World
    requires k in w.server.operations && w.server.operations[k].Running?
  {
    w.(server := SetOperation(w.server, k, Lapsed(w.server.operations[k].request)))
  }

  /** A worker that outlived its lease extends it, as one that queues a package job does. */
  function RenewStep(w: World, k: Key): World
    requires k in w.server.operations && w.server.operations[k].Lapsed?
  {
    w.(server := SetOperation(w.server, k, Running(w.server.operations[k].request)))
  }

  /** The recovery window of the row ends. */
  function RetireStep(w: World, k: Key): World
    requires k in w.server.operations
  {
    var o := w.server.operations[k];
    w.(server := SetOperation(w.server, k, if HasWorker(w.server, k) then Stale(o.request) else Expired))
  }

  /** A claim of any key turns the rows past their window into tombstones, which fences their workers. */
  function SweepStep(w: World, k: Key): World {
    w.(server := SetOperation(w.server, k, Expired), outstanding := Answer(w, k))
  }

  function ExpireStep(w: World, v: nat): World
    requires v < |w.server.sessions|
  {
    w.(server := w.server.(sessions := w.server.sessions[v := w.server.sessions[v].(open := false)]))
  }

  function DeleteStep(w: World, id: nat): World {
    w.(server := w.server.(deleted := w.server.deleted + {id}))
  }

  /** A server without operation records serves every publication request it receives. */
  function LegacyStep(c: Config, w: World, r: Request): World
    requires CanWork(w.server, r)
  {
    w.(server := Worked(c, w.server, r),
       late := if w.outstanding == InFlight(r) then w.late else w.late - {r},
       outstanding := if w.outstanding == InFlight(r) then Answered(Success(w.server, r)) else w.outstanding)
  }

  predicate CanLand(c: Config, w: World, r: Request, e: PutEffect) {
    && r in w.late && r.PutFile? && r.index < |c.files| && r.versionId < |w.server.sessions|
    && (e != Untouched ==> w.server.sessions[r.versionId].open)
  }

  function LandStep(c: Config, w: World, r: Request, e: PutEffect): World
    requires CanLand(c, w, r, e)
  {
    w.(late := w.late - {r}, server := Effect(w.server, r.versionId, c.files[r.index], e))
  }

  predicate Enabled(c: Config, w: World, a: Action) {
    var s := w.server;
    match a
    case Start(_) => !Live(w.pc) && Settled(c, w)
    case Overtake(_) => Live(w.pc) && !c.alone && Settled(c, w)
    case Save => w.pc.Saving?
    case Fail => Live(w.pc)
    case Crash => Live(w.pc)
    case AskPackage(r) =>
      && (w.pc.AskingPackage? || w.pc.Waiting?)
      && (r.CompletedJob? ==>
            && r.id < |s.published| && r.id !in s.deleted
            && w.journal.versionId.Some? && s.published[r.id].versionId == w.journal.versionId)
      && (r.Busy? || r.FailedJob? ==>
            forall id :: 0 <= id < |s.published| ==> s.published[id].versionId != w.journal.versionId)
    case RetryPackage(_) => w.pc.RetryingPackage?
    case AskOperation => w.pc.AskingInline? || w.pc.AskingCommit?
    case AskSession =>
      && w.pc.AskingSession? && w.journal.versionId.Some?
      && w.journal.versionId.value < |s.sessions| && s.sessions[w.journal.versionId.value].open
    case FindNoSession =>
      && w.pc.AskingSession? && w.journal.versionId.Some?
      && (w.journal.versionId.value < |s.sessions| ==> !s.sessions[w.journal.versionId.value].open)
    case Send =>
      || w.pc.SendingInline? || w.pc.SendingStart?
      || (w.pc.SendingCommit? && w.journal.versionId.Some?)
    case Receive =>
      && (w.pc.AwaitingInline? || w.pc.AwaitingStart? || w.pc.AwaitingCommit?)
      && w.outstanding.Answered?
    case LoseReply =>
      && (w.pc.AwaitingInline? || w.pc.AwaitingStart? || w.pc.AwaitingCommit?)
      && !w.outstanding.Nothing?
    case Advance => w.pc.Uploading? && w.pc.index <= |c.files|
    case Transfer(e, acknowledged) => CanTransfer(c, w, e, acknowledged)
    case Claim(r) => CanClaim(c, w, r)
    case Refuse(r) =>
      && w.outstanding.InFlight?
      && (r.Refused? || (r.TooLarge? && w.outstanding.request.PostInline?))
    case Drop(r) => r in w.late
    case Replay => CanReplay(w)
    case Work(k) => CanFinish(w, k)
    case GiveUp(k) => HasWorker(s, k)
    case Enqueue(k) => c.asyncPackage && HasWorker(s, k) && k.CommitKey? && MineAtServer(w, k)
    case Lapse(k) => k in s.operations && s.operations[k].Running? && (c.leased ==> !Live(w.pc))
    case Renew(k) => k in s.operations && s.operations[k].Lapsed?
    case Retire(k) => k in s.operations
    case Sweep(k) => k in s.operations && s.operations[k].Stale?
    case ExpireSession(v) => v < |s.sessions| && s.sessions[v].open
    case DeleteArtifact(id) => id < |s.published|
    case ServeLegacy(r) => c.legacy && (r in w.late || w.outstanding == InFlight(r)) && CanWork(s, r)
    case LandPut(r, e) => CanLand(c, w, r, e)
  }

  /** The unique result of an enabled action. */
  function Apply(c: Config, w: World, a: Action): World
    requires Enabled(c, w, a)
  {
    match a
    case Start(inline) => StartStep(c, w, inline)
    case Overtake(inline) => OvertakeStep(c, w, inline)
    case Save => w.(disk := Some(w.journal), pc := w.pc.next)
    case Fail => StopStep(c, w.(disk := Some(w.journal)))
    case Crash => StopStep(c, w)
    case AskPackage(r) => AfterPackage(w, r)
    case RetryPackage(found) => w.(pc := if found then Waiting(true) else AskingInline)
    case AskOperation => AfterStatus(w, OperationStatus(c, w.server, Asked(w)))
    case AskSession =>
      var staged := Staged(c, w.server.sessions[w.journal.versionId.value]);
      w.(journal := w.journal.(done := Keep(w.journal.done, staged)), pc := Uploading(0))
    case FindNoSession => w.(journal := Restarted(w.journal), pc := Saving(SendingStart))
    case Send => SendStep(w)
    case Receive => AfterReply(w, w.outstanding.reply)
    case LoseReply => w.(late := Abandoned(c, w), outstanding := Nothing, pc := Throwing)
    case Advance => NextFile(c, w)
    case Transfer(e, acknowledged) => TransferStep(c, w, e, acknowledged)
    case Claim(r) => ClaimStep(w, r)
    case Refuse(r) => w.(outstanding := Answered(r))
    case Drop(r) => w.(late := w.late - {r})
    case Replay => ReplayStep(w)
    case Work(k) => WorkStep(c, w, k)
    case GiveUp(k) => GiveUpStep(w, k)
    case Enqueue(k) => Settle(w, k, Accepted)
    case Lapse(k) => LapseStep(w, k)
    case Renew(k) => RenewStep(w, k)
    case Retire(k) => RetireStep(w, k)
    case Sweep(k) => SweepStep(w, k)
    case ExpireSession(v) => ExpireStep(w, v)
    case DeleteArtifact(id) => DeleteStep(w, id)
    case ServeLegacy(r) => LegacyStep(c, w, r)
    case LandPut(r, e) => LandStep(c, w, r, e)
  }

  /** The end of a run, if every action was enabled when its turn came. */
  function Run(c: Config, w: World, actions: seq<Action>): Option<World>
    decreases |actions|
  {
    if actions == [] then Some(w)
    else if Enabled(c, w, actions[0]) then Run(c, Apply(c, w, actions[0]), actions[1..])
    else None
  }

  lemma {:induction false} RunAppend(c: Config, w: World, a: seq<Action>, b: seq<Action>)
    requires Run(c, w, a).Some?
    ensures Run(c, w, a + b) == Run(c, Run(c, w, a).value, b)
    decreases |a|
  {
    if a == [] {
      assert a + b == b;
    } else {
      assert (a + b)[1..] == a[1..] + b;
      RunAppend(c, Apply(c, w, a[0]), a[1..], b);
    }
  }
}
