/**
 The version feed of a viewer page (the effect of src/components/site-version-watcher.tsx): an event stream, a poll
 and a watchdog, closed while the page is hidden. Each event below runs one handler to its end.
 */
module VersionFeed {
  import opened Prelude

  /** `live`: the browser has not given up on the stream. `proved`: something of its body has arrived. */
  datatype Stream = Stream(live: bool, proved: bool)

  datatype Note = Note(version: string, applied: bool)

  /** The variables of the effect, then the new versions reported by either transport and the ones announced. */
  datatype Watch = Watch(
    hidden: bool,
    stopped: bool,
    poll: bool,
    watchdog: bool,
    source: Option<Stream>,
    lastAnnounced: Option<string>,
    noteTimer: bool,
    note: Option<Note>,
    reported: seq<string>,
    announced: seq<string>)

  datatype Config = Config(rendered: string, autoRefresh: bool)

  /** `opens`: the stream can be constructed. `applies`: the frame accepts to be reloaded. A version is None when the
      answer carries no string. */
  datatype Event =
    | Hide
    | Show(opens: bool)
    | Hello
    | VersionFrame(seen: Option<string>, applies: bool)
    | StreamError(gaveUp: bool)
    | WatchdogFires
    | FetchAnswers(seen: Option<string>, applies: bool)
    | NoteTimerFires
    | RefreshApplied
    | Unmount

  predicate IsNewVersion(rendered: string, seen: Option<string>) {
    seen.Some? && seen.value != "" && seen.value != rendered
  }

  predicate Enabled(s: Watch, e: Event) {
    match e
    case Hide => !s.stopped && !s.hidden
    case Show(_) => !s.stopped && s.hidden
    case Hello => s.source.Some? && s.source.value.live
    case VersionFrame(_, _) => s.source.Some? && s.source.value.live
    case StreamError(_) => s.source.Some? && s.source.value.live
    case WatchdogFires => s.watchdog
    case FetchAnswers(_, _) => true
    case NoteTimerFires => s.noteTimer
    case RefreshApplied => !s.stopped
    case Unmount => !s.stopped
  }

  // ----- the handlers -----

  function Announced(s: Watch, c: Config, version: string, applies: bool): Watch {
    if s.stopped then s
    else
      var heard := s.(reported := s.reported + [version]);
      if s.lastAnnounced == Some(version) then heard
      else
        heard.(lastAnnounced := Some(version), announced := s.announced + [version],
               note := Some(Note(version, c.autoRefresh && applies)),
               noteTimer := s.noteTimer || (c.autoRefresh && applies))
  }

  function PollingStarted(s: Watch): Watch {
    s.(poll := s.poll || !s.stopped)
  }

  function StreamOpened(s: Watch, opens: bool): Watch {
    if s.source.Some? || s.stopped then s
    else if !opens then PollingStarted(s)
    else s.(source := Some(Stream(true, false)), watchdog := true)
  }

  function StreamClosed(s: Watch): Watch {
    s.(watchdog := false, source := None, poll := false)
  }

  function BodyFlowed(s: Watch): Watch
    requires s.source.Some?
  {
    s.(watchdog := false, poll := false, source := Some(s.source.value.(proved := true)))
  }

  function Told(s: Watch, c: Config, seen: Option<string>, applies: bool): Watch {
    if !s.stopped && IsNewVersion(c.rendered, seen) then Announced(s, c, seen.value, applies) else s
  }

  function Apply(s: Watch, c: Config, e: Event): Watch
    requires Enabled(s, e)
  {
    match e
    case Hide => StreamClosed(s.(hidden := true))
    case Show(opens) => StreamOpened(s.(hidden := false), opens)
    case Hello => BodyFlowed(s)
    case VersionFrame(seen, applies) => Told(BodyFlowed(s), c, seen, applies)
    case StreamError(gaveUp) =>
      if gaveUp then PollingStarted(s.(source := Some(s.source.value.(live := false)))) else s
    case WatchdogFires => PollingStarted(s.(watchdog := false))
    case FetchAnswers(seen, applies) => Told(s, c, seen, applies)
    case NoteTimerFires => s.(noteTimer := false, note := None)
    case RefreshApplied => s.(note := None)
    case Unmount => StreamClosed(s.(stopped := true, noteTimer := false))
  }

  function Mounted(hidden: bool, opens: bool): Watch {
    var s := Watch(hidden, false, false, false, None, None, false, None, [], []);
    if hidden then s else StreamOpened(s, opens)
  }

  /** The states that the events lead through, from any first one. */
  ghost predicate Steps(states: seq<Watch>, c: Config, events: seq<Event>) {
    && |states| == |events| + 1
    && forall k :: 0 <= k < |events| ==>
         Enabled(states[k], events[k]) && states[k + 1] == Apply(states[k], c, events[k])
  }

  ghost predicate Run(states: seq<Watch>, c: Config, events: seq<Event>) {
    Steps(states, c, events) && exists hidden, opens :: states[0] == Mounted(hidden, opens)
  }

  lemma RunOneMore(states: seq<Watch>, c: Config, events: seq<Event>, e: Event)
    requires Run(states, c, events) && Enabled(states[|events|], e)
    ensures Run(states + [Apply(states[|events|], c, e)], c, events + [e])
  {
    assert (states + [Apply(states[|events|], c, e)])[0] == states[0];
  }

  /** Of what is tried one after the other, what can happen. */
  ghost function Possible(s: Watch, c: Config, events: seq<Event>): seq<Event>
    decreases |events|
  {
    if events == [] then []
    else if Enabled(s, events[0]) then [events[0]] + Possible(Apply(s, c, events[0]), c, events[1..])
    else Possible(s, c, events[1..])
  }

  // ----- one transport, and only while someone looks -----

  /** Repeats next to each other count once. */
  function Dedup(s: seq<string>): seq<string> {
    if s == [] then []
    else
      var last := |s| - 1;
      if last > 0 && s[last - 1] == s[last] then Dedup(s[..last]) else Dedup(s[..last]) + [s[last]]
  }

  /** The transports. */
  ghost predicate Transported(s: Watch) {
    && (s.stopped || s.hidden ==> s.source.None? && !s.poll && !s.watchdog)
    && (!s.stopped && !s.hidden ==>
          s.poll || s.watchdog || (s.source.Some? && s.source.value.live && s.source.value.proved))
    && (s.watchdog ==> s.source.Some? && !s.source.value.proved)
    && (s.poll && s.source.Some? ==> !s.source.value.live || !s.source.value.proved)
  }

  /** The announcements. */
  ghost predicate Recorded(c: Config, reported: seq<string>, announced: seq<string>, lastAnnounced: Option<string>) {
    && announced == Dedup(reported)
    && lastAnnounced == (if reported == [] then None else Some(reported[|reported| - 1]))
    && (forall v :: v in reported ==> v != "" && v != c.rendered)
  }

  ghost predicate Inv(s: Watch, c: Config) {
    && Transported(s) && Recorded(c, s.reported, s.announced, s.lastAnnounced)
    && (s.stopped ==> !s.noteTimer) && (s.noteTimer ==> c.autoRefresh)
  }

  lemma DedupAppend(s: seq<string>, v: string)
    ensures Dedup(s + [v]) == if s != [] && s[|s| - 1] == v then Dedup(s) else Dedup(s) + [v]
  {
    assert (s + [v])[..|s|] == s;
  }

  lemma RecordedNext(c: Config, reported: seq<string>, announced: seq<string>, lastAnnounced: Option<string>, v: string)
    requires Recorded(c, reported, announced, lastAnnounced) && v != "" && v != c.rendered
    ensures Recorded(c, reported + [v], if lastAnnounced == Some(v) then announced else announced + [v], Some(v))
  {
    DedupAppend(reported, v);
  }

  lemma KeepAnnounced(s: Watch, c: Config, version: string, applies: bool)
    requires Inv(s, c) && version != "" && version != c.rendered
    ensures Inv(Announced(s, c, version, applies), c)
  {
    RecordedNext(c, s.reported, s.announced, s.lastAnnounced, version);
  }

  lemma KeepTransport(s: Watch, c: Config, e: Event)
    requires Inv(s, c) && Enabled(s, e) && !e.VersionFrame? && !e.FetchAnswers?
    ensures Inv(Apply(s, c, e), c)
  {
  }

  lemma KeepInv(s: Watch, c: Config, e: Event)
    requires Inv(s, c) && Enabled(s, e)
    ensures Inv(Apply(s, c, e), c)
  {
    match e
    case VersionFrame(seen, applies) =>
      KeepTransport(s, c, Hello);
      if seen.Some? && IsNewVersion(c.rendered, seen) {
        KeepAnnounced(BodyFlowed(s), c, seen.value, applies);
      }
    case FetchAnswers(seen, applies) =>
      if seen.Some? && IsNewVersion(c.rendered, seen) {
        KeepAnnounced(s, c, seen.value, applies);
      }
    case _ =>
      KeepTransport(s, c, e);
  }

  lemma {:induction false} RunKeepsInv(states: seq<Watch>, c: Config, events: seq<Event>, k: nat)
    requires Run(states, c, events) && k <= |events|
    ensures Inv(states[k], c)
  {
    if k > 0 {
      RunKeepsInv(states, c, events, k - 1);
      assert Enabled(states[k - 1], events[k - 1]) && states[k] == Apply(states[k - 1], c, events[k - 1]);
      KeepInv(states[k - 1], c, events[k - 1]);
    }
  }

  /** In every run: nobody looking, nothing running; someone looking, some transport to rely on. */
  lemma WatchedIffLookedAt(states: seq<Watch>, c: Config, events: seq<Event>, k: nat)
    requires Run(states, c, events) && k <= |events|
    ensures
      var s := states[k];
      var flowing := s.source.Some? && s.source.value.live && s.source.value.proved;
      && (s.stopped || s.hidden <==> !(s.poll || s.watchdog || flowing))
      && (s.stopped || s.hidden ==> s.source.None?)
      && !(s.poll && flowing)
  {
    RunKeepsInv(states, c, events, k);
  }

  // ----- announcements -----

  lemma {:induction false} DedupHasNoNeighbours(s: seq<string>)
    ensures s != [] ==> Dedup(s) != [] && Dedup(s)[|Dedup(s)| - 1] == s[|s| - 1]
    ensures forall i :: 0 < i < |Dedup(s)| ==> Dedup(s)[i - 1] != Dedup(s)[i]
    ensures forall v :: v in Dedup(s) <==> v in s
  {
    if s != [] {
      var last := |s| - 1;
      DedupHasNoNeighbours(s[..last]);
      assert s == s[..last] + [s[last]];
    }
  }

  lemma {:induction false} DedupEnds(s: seq<string>)
    ensures s != [] ==> Dedup(s) != [] && Dedup(s)[|Dedup(s)| - 1] == s[|s| - 1]
  {
    if s != [] {
      DedupEnds(s[..|s| - 1]);
    }
  }

  /** A version that both transports report, one after the other, is announced once; every version reported is
      announced; the version announced last is the one reported last. */
  lemma AnnouncedOnce(states: seq<Watch>, c: Config, events: seq<Event>, k: nat)
    requires Run(states, c, events) && k <= |events|
    ensures
      var s := states[k];
      && (forall i :: 0 < i < |s.announced| ==> s.announced[i - 1] != s.announced[i])
      && (forall v :: v in s.announced <==> v in s.reported)
      && (s.reported != [] ==> s.announced != [] && s.announced[|s.announced| - 1] == s.reported[|s.reported| - 1])
      && c.rendered !in s.announced
  {
    RunKeepsInv(states, c, events, k);
    DedupHasNoNeighbours(states[k].reported);
  }

  /** The note of a reader is never taken away by the timer: it stays until the frame was refreshed, or is replaced. */
  lemma ReadersKeepTheirOffer(states: seq<Watch>, c: Config, events: seq<Event>, k: nat)
    requires Run(states, c, events) && k < |events| && !c.autoRefresh && states[k].note.Some?
    ensures states[k + 1].note.Some? || events[k].RefreshApplied?
    ensures !events[k].NoteTimerFires?
  {
    RunKeepsInv(states, c, events, k);
    assert Enabled(states[k], events[k]) && states[k + 1] == Apply(states[k], c, events[k]);
  }

  /** A continuation takes the offer away although nothing newer was announced and the frame was not refreshed. */
  ghost predicate Vanishes(s: Watch, c: Config, states: seq<Watch>, events: seq<Event>) {
    && Steps(states, c, events) && states[0] == s && RefreshApplied !in events
    && states[|events|].announced == s.announced && states[|events|].note == None
  }

  lemma AnnouncedGrows(s: Watch, c: Config, e: Event)
    requires Enabled(s, e)
    ensures s.announced <= Apply(s, c, e).announced
  {
  }

  /** Without a running timer, what is shown stays, through every state, until a refresh or a newer version. */
  lemma {:induction false} OfferStays(states: seq<Watch>, c: Config, events: seq<Event>, k: nat)
    requires Steps(states, c, events) && k <= |events| && RefreshApplied !in events[..k]
    requires states[0].note.Some? && !states[0].noteTimer
    ensures states[0].announced <= states[k].announced
    ensures states[k].announced == states[0].announced ==> states[k].note == states[0].note && !states[k].noteTimer
  {
    if k > 0 {
      assert events[..k - 1] == events[..k][..k - 1] && events[..k][k - 1] == events[k - 1];
      OfferStays(states, c, events, k - 1);
      assert Enabled(states[k - 1], events[k - 1]) && states[k] == Apply(states[k - 1], c, events[k - 1]);
      AnnouncedGrows(states[k - 1], c, events[k - 1]);
    }
  }

  /** In every run: an offer that the frame did not accept can be taken away, by some continuation without a refresh or
      a newer version, exactly when the timer of an earlier version is running. */
  lemma OfferVanishesIffTimerRuns(states: seq<Watch>, c: Config, events: seq<Event>)
    requires Run(states, c, events) && states[|events|].note.Some? && !states[|events|].note.value.applied
    ensures
      var s := states[|events|];
      (exists states', events' :: Vanishes(s, c, states', events')) <==> s.noteTimer
  {
    var s := states[|events|];
    if s.noteTimer {
      assert Vanishes(s, c, [s, Apply(s, c, NoteTimerFires)], [NoteTimerFires]);
    }
    forall states', events' | Vanishes(s, c, states', events')
      ensures s.noteTimer
    {
      if !s.noteTimer {
        assert events'[..|events'|] == events';
        OfferStays(states', c, events', |events'|);
      }
    }
  }

  /** This does happen: version 2 is applied, version 3 is not, and the timer of version 2 removes its offer. */
  lemma AnOfferVanishes() returns (states: seq<Watch>, c: Config, events: seq<Event>)
    ensures Run(states, c, events) && |events| == 3
    ensures states[2].note == Some(Note("3", false)) && events[2] == NoteTimerFires && states[3].note == None
    ensures states[3].lastAnnounced == Some("3")
  {
    c := Config("1", true);
    events := [FetchAnswers(Some("2"), true), FetchAnswers(Some("3"), false), NoteTimerFires];
    var s0 := Mounted(false, true);
    var s1 := Apply(s0, c, events[0]);
    var s2 := Apply(s1, c, events[1]);
    var s3 := Apply(s2, c, events[2]);
    states := [s0, s1, s2, s3];
  }

  // ----- the effect -----

  /** What anybody can see of the effect. */
  ghost predicate Visible(s: Watch, c: Config) {
    var flowing := s.source.Some? && s.source.value.live && s.source.value.proved;
    && (s.stopped || s.hidden <==> !(s.poll || s.watchdog || flowing))
    && (s.stopped || s.hidden ==> s.source.None?)
    && (forall i :: 0 < i < |s.announced| ==> s.announced[i - 1] != s.announced[i])
    && (forall v :: v in s.announced <==> v in s.reported)
    && c.rendered !in s.announced && (!c.autoRefresh || s.stopped ==> !s.noteTimer)
  }

  lemma AnnouncedObserved(s: Watch, c: Config, version: string, applies: bool)
    requires Inv(s, c) && IsNewVersion(c.rendered, Some(version))
    ensures
      var s' := Announced(s, c, version, applies);
      && Inv(s', c)
      && (!s.stopped ==> s'.announced != [] && s'.announced[|s'.announced| - 1] == version)
      && |s'.announced| <= |s.announced| + 1 && s.announced <= s'.announced
      && (s'.announced != s.announced ==> s'.note == Some(Note(version, c.autoRefresh && applies)))
  {
    KeepAnnounced(s, c, version, applies);
    DedupEnds(Announced(s, c, version, applies).reported);
  }

  class Watcher {
    const config: Config
    var hidden: bool
    var stopped: bool
    var poll: bool
    var watchdog: bool
    var source: Option<Stream>
    var lastAnnounced: Option<string>
    var noteTimer: bool
    var note: Option<Note>
    ghost var reported: seq<string>
    ghost var announced: seq<string>
    /** The events so far and the states they led through. */
    ghost var trail: seq<Event>
    ghost var states: seq<Watch>

    ghost function Current(): Watch
      reads this
    {
      Watch(hidden, stopped, poll, watchdog, source, lastAnnounced, noteTimer, note, reported, announced)
    }

    /** What has been reported so far does not decide what can happen. */
    predicate CanHappen(e: Event)
      reads this
      ensures CanHappen(e) <==> Enabled(Current(), e)
    {
      Enabled(Watch(hidden, stopped, poll, watchdog, source, lastAnnounced, noteTimer, note, [], []), e)
    }

    /** The fields are the end of a run of the machine. */
    ghost predicate Linked()
      reads this
    {
      Run(states, config, trail) && states[|trail|] == Current()
    }

    constructor (config: Config, hidden: bool, opens: bool)
      ensures this.config == config && Linked() && trail == [] && Current() == Mounted(hidden, opens)
    {
      this.config, this.hidden, stopped, poll, watchdog, source := config, hidden, false, false, false, None;
      lastAnnounced, noteTimer, note, reported, announced := None, false, None, [], [];
      trail, states := [], [];
      new;
      if !hidden {
        OpenStream(opens);
      }
      states := [Current()];
      assert states[0] == Mounted(hidden, opens);
    }

    /** A new version arrives. Reported again directly, it is not announced again; otherwise the note shows it. */
    method Announce(version: string, applies: bool)
      requires Inv(Current(), config) && IsNewVersion(config.rendered, Some(version))
      modifies this`lastAnnounced, this`noteTimer, this`note, this`reported, this`announced
      ensures Inv(Current(), config) && Current() == Announced(old(Current()), config, version, applies)
      ensures !stopped ==> announced != [] && announced[|announced| - 1] == version
      ensures |announced| <= |old(announced)| + 1 && old(announced) <= announced
      ensures announced != old(announced) ==> note == Some(Note(version, config.autoRefresh && applies))
    {
      AnnouncedObserved(Current(), config, version, applies);
      AnnounceUnlessKnown(version, applies);
    }

    method AnnounceUnlessKnown(version: string, applies: bool)
      modifies this`lastAnnounced, this`noteTimer, this`note, this`reported, this`announced
      ensures Current() == Announced(old(Current()), config, version, applies)
    {
      if stopped {
        return;
      }
      reported := reported + [version];
      if lastAnnounced == Some(version) {
        return;
      }
      lastAnnounced, announced := Some(version), announced + [version];
      if config.autoRefresh {
        note := Some(Note(version, applies));
        if applies {
          noteTimer := true;
        }
        return;
      }
      note := Some(Note(version, false));
    }

    method StartPolling()
      modifies this`poll
      ensures poll == (old(poll) || !stopped)
    {
      if !poll && !stopped {
        poll := true;
      }
    }

    method OpenStream(opens: bool)
      modifies this`poll, this`source, this`watchdog
      ensures Current() == StreamOpened(old(Current()), opens)
      ensures !stopped && old(source).None? ==> poll || watchdog
    {
      if source.Some? || stopped {
        return;
      }
      if !opens {
        StartPolling();
        return;
      }
      source, watchdog := Some(Stream(true, false)), true;
    }

    method CloseStream()
      modifies this`poll, this`source, this`watchdog
      ensures !poll && !watchdog && source.None?
    {
      watchdog := false;
      source := None;
      poll := false;
    }

    method OnBody()
      requires source.Some?
      modifies this`poll, this`source, this`watchdog
      ensures !poll && !watchdog && source == Some(old(source).value.(proved := true))
    {
      watchdog, poll := false, false;
      source := Some(source.value.(proved := true));
    }

    method OnVersion(seen: Option<string>, applies: bool)
      requires Inv(Current(), config) && Enabled(Current(), VersionFrame(seen, applies))
      modifies this`poll, this`source, this`watchdog, this`lastAnnounced, this`noteTimer, this`note, this`reported,
               this`announced
      ensures Current() == Apply(old(Current()), config, VersionFrame(seen, applies))
    {
      KeepTransport(Current(), config, Hello);
      OnBody();
      if IsNewVersion(config.rendered, seen) {
        Announce(seen.value, applies);
      }
    }

    method OnError(gaveUp: bool)
      requires source.Some?
      modifies this`poll, this`source
      ensures gaveUp ==> source == Some(old(source).value.(live := false)) && poll == (old(poll) || !stopped)
      ensures !gaveUp ==> source == old(source) && poll == old(poll)
    {
      if gaveUp {
        source := Some(source.value.(live := false));
        StartPolling();
      }
    }

    method OnFetched(seen: Option<string>, applies: bool)
      requires Inv(Current(), config)
      modifies this`lastAnnounced, this`noteTimer, this`note, this`reported, this`announced
      ensures Current() == Apply(old(Current()), config, FetchAnswers(seen, applies))
    {
      if !stopped && IsNewVersion(config.rendered, seen) {
        Announce(seen.value, applies);
      }
    }

    /** Nothing runs behind a hidden page; something does as soon as it is looked at again. */
    method OnVisibility(hides: bool, opens: bool)
      requires Inv(Current(), config) && !stopped && hidden == !hides
      modifies this`hidden, this`poll, this`source, this`watchdog
      ensures Current() == Apply(old(Current()), config, if hides then Hide else Show(opens))
      ensures Inv(Current(), config)
      ensures if hides then source.None? && !poll && !watchdog else poll || watchdog
    {
      KeepTransport(Current(), config, if hides then Hide else Show(opens));
      hidden := hides;
      if hides {
        CloseStream();
        return;
      }
      OpenStream(opens);
    }

    method OnUnmount()
      modifies this`stopped, this`noteTimer, this`poll, this`source, this`watchdog
      ensures stopped && !noteTimer && !poll && !watchdog && source.None?
    {
      stopped, noteTimer := true, false;
      CloseStream();
    }

    /** The handler that an event runs. */
    method Dispatch(e: Event)
      requires Inv(Current(), config) && Enabled(Current(), e)
      modifies this`hidden, this`stopped, this`poll, this`watchdog, this`source, this`lastAnnounced, this`noteTimer,
               this`note, this`reported, this`announced
      ensures Current() == Apply(old(Current()), config, e)
    {
      match e
      case Hide => OnVisibility(true, false);
      case Show(opens) => OnVisibility(false, opens);
      case Hello => OnBody();
      case VersionFrame(seen, applies) => OnVersion(seen, applies);
      case StreamError(gaveUp) => OnError(gaveUp);
      case WatchdogFires =>
        watchdog := false;
        StartPolling();
      case FetchAnswers(seen, applies) => OnFetched(seen, applies);
      case NoteTimerFires => noteTimer, note := false, None;
      case RefreshApplied => note := None;
      case Unmount => OnUnmount();
    }

    /** Every event extends the run by itself. */
    method Handle(e: Event)
      requires Linked() && Enabled(Current(), e)
      modifies this
      ensures Linked() && trail == old(trail) + [e] && states == old(states) + [Current()]
    {
      RunKeepsInv(states, config, trail, |trail|);
      RunOneMore(states, config, trail, e);
      Dispatch(e);
      states, trail := states + [Current()], trail + [e];
    }

    /** A page's life: whatever happens, in whatever order, is a run of the machine, and what can be seen holds at its
        end. */
    method Live(events: seq<Event>)
      requires Linked()
      modifies this
      ensures Linked() && trail == old(trail) + Possible(old(Current()), config, events) && Visible(Current(), config)
    {
      for k := 0 to |events|
        invariant Linked()
        invariant trail + Possible(Current(), config, events[k..]) ==
                  old(trail) + Possible(old(Current()), config, events)
      {
        ghost var n := |trail|;
        assert events[k..][0] == events[k] && events[k..][1..] == events[k + 1..];
        if CanHappen(events[k]) {
          Handle(events[k]);
          assert states[n + 1] == Apply(states[n], config, trail[n]);
        }
      }
      RunKeepsInv(states, config, trail, |trail|);
      DedupHasNoNeighbours(reported);
    }
  }
}
