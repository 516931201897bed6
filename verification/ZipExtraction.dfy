/**
 Streaming extraction of a ZIP archive (`extractZip`, `preflightTree` and `totalSize` in cli/src/archive.ts). The
 unzipper calls back in any order: an entry found, a chunk for an entry found before. A handle is named by the
 position of its file in `files`.
 */
module ZipExtraction {
  import opened Prelude
  import opened RelativePath

  datatype Limits = Limits(maxFiles: nat, maxFileBytes: nat, maxBytes: nat)

  datatype Failure =
    | UnsafePath | DuplicatePath | TooManyFiles | TooLarge | SystemError | BadArchive | Truncated | NoEntryPage

  datatype Item = Item(relpath: string, size: nat)

  // ----- what an entry name stands for -----

  datatype Verdict = Refused | Skipped(name: string) | Folder | File(relpath: string)

  predicate Hidden(part: string) {
    (part != "" && part[0] == '.') || part == "__MACOSX" || part == "Thumbs.db" || Lower(part) == "node_modules"
  }

  function WithoutSlash(s: string): string {
    if s != "" && s[|s| - 1] == '/' then s[..|s| - 1] else s
  }

  predicate Climbs(s: string) {
    || "." in Split(WithoutSlash(s)) || ".." in Split(WithoutSlash(s))
    || (s != "" && s[0] == '/') || HasDrive(s)
  }

  function Judge(nfc: string -> string, name: string): Verdict {
    var s := Prepared(nfc, name);
    if Climbs(s) then Refused
    else if exists i :: 0 <= i < |Split(WithoutSlash(s))| && Hidden(Split(WithoutSlash(s))[i]) then Skipped(name)
    else if name != "" && name[|name| - 1] == '/' then
      if SafeRelativePath(nfc, name[..|name| - 1]).Safe? then Folder else Refused
    else
      match SafeRelativePath(nfc, name)
      case Safe(p) => File(p)
      case _ => Refused
  }

  /** The files that come out have canonical paths without any skipped name; nothing that climbs is merely skipped. */
  lemma JudgedSoundly(nfc: string -> string, name: string)
    requires IsNfc(nfc)
    ensures Judge(nfc, name).File? ==>
      var p := Judge(nfc, name).relpath;
      p == Prepared(nfc, name) && Canonical(nfc, p) && forall part :: part in Split(p) ==> !Hidden(part)
    ensures Climbs(Prepared(nfc, name)) ==> Judge(nfc, name).Refused?
  {
    var s := Prepared(nfc, name);
    if Judge(nfc, name).File? {
      AcceptedIsCanonical(nfc, name);
      NoTrailingSlash(s);
    }
  }

  lemma {:induction false} LastPart(s: string)
    requires s != "" && s[|s| - 1] == '/'
    ensures Split(s)[|Split(s)| - 1] == ""
  {
    if |s| == 1 {
      assert Split(s[1..]) == [""];
    } else {
      assert s[1..][|s| - 2] == '/';
      LastPart(s[1..]);
      if s[0] != '/' {
        SplitTwice(s[1..]);
      }
    }
  }

  lemma SplitTwice(s: string)
    requires s != "" && s[|s| - 1] == '/'
    ensures |Split(s)| >= 2
    decreases |s|
  {
    if s[0] != '/' {
      SplitTwice(s[1..]);
    }
  }

  lemma NoTrailingSlash(s: string)
    requires forall i :: 0 <= i < |Split(s)| ==> SafePart(Split(s)[i])
    ensures WithoutSlash(s) == s
  {
    if s != "" && s[|s| - 1] == '/' {
      LastPart(s);
    }
  }

  // ----- sums -----

  function Sum(s: seq<nat>): nat {
    if s == [] then 0 else Sum(s[..|s| - 1]) + s[|s| - 1]
  }

  lemma {:induction false} SumUpdate(s: seq<nat>, i: nat, v: nat)
    requires i < |s|
    ensures Sum(s[i := v]) == Sum(s) - s[i] + v
  {
    var last := |s| - 1;
    if i == last {
      assert s[i := v][..last] == s[..last];
    } else {
      assert s[i := v][..last] == s[..last][i := v];
      SumUpdate(s[..last], i, v);
    }
  }

  lemma SumAppend(s: seq<nat>, v: nat)
    ensures Sum(s + [v]) == Sum(s) + v
  {
    assert (s + [v])[..|s|] == s;
  }

  function Sizes(files: seq<Item>): (s: seq<nat>)
    ensures |s| == |files| && forall i :: 0 <= i < |s| ==> s[i] == files[i].size
  {
    seq(|files|, i requires 0 <= i < |files| => files[i].size)
  }

  function Lengths(disk: seq<seq<byte>>): (s: seq<nat>)
    ensures |s| == |disk| && forall i :: 0 <= i < |s| ==> s[i] == |disk[i]|
  {
    seq(|disk|, i requires 0 <= i < |disk| => |disk[i]|)
  }

  function TotalSize(files: seq<Item>): nat {
    Sum(Sizes(files))
  }

  // ----- the last check of the tree -----

  predicate EndsWith(s: string, end: string) {
    |end| <= |s| && s[|s| - |end|..] == end
  }

  function Pages(files: seq<Item>): seq<string> {
    if files == [] then []
    else
      var p := files[|files| - 1].relpath;
      Pages(files[..|files| - 1]) + if EndsWith(Lower(p), ".html") then [p] else []
  }

  predicate IsIndex(p: string) {
    p == "index.html" || EndsWith(Lower(p), "/index.html")
  }

  function PreflightTree(nfc: string -> string, files: seq<Item>, l: Limits): Option<Failure> {
    if |files| > l.maxFiles || TotalSize(files) > l.maxBytes
       || exists i :: 0 <= i < |files| && files[i].size > l.maxFileBytes
    then Some(TooLarge)
    else if exists i :: 0 <= i < |files| && !SafeRelativePath(nfc, files[i].relpath).Safe? then Some(UnsafePath)
    else if |files| == 1 && EndsWith(Lower(files[0].relpath), ".pdf") then None
    else if (forall p :: p in Pages(files) ==> !IsIndex(p)) && |Pages(files)| != 1 then Some(NoEntryPage)
    else None
  }

  // ----- what the callbacks are told -----

  /** `opens`: the file can be created. `kept`: how much of the chunk is written before an error, if less than all.
      `closes`: the handle can be closed after the last chunk. */
  datatype Event =
    | Found(name: string, opens: bool)
    | Chunk(file: nat, broken: bool, bytes: seq<byte>, last: bool, kept: nat, closes: bool)

  /** One `push` of archive bytes: the callbacks it makes, and whether it or the read before it throws. */
  datatype Push = Push(events: seq<Event>, throws: bool)

  function SkippedOf(judged: seq<Verdict>): seq<string> {
    if judged == [] then []
    else
      var v := judged[|judged| - 1];
      SkippedOf(judged[..|judged| - 1]) + if v.Skipped? then [v.name] else []
  }

  function FilesOf(judged: seq<Verdict>): seq<string> {
    if judged == [] then []
    else
      var v := judged[|judged| - 1];
      FilesOf(judged[..|judged| - 1]) + if v.File? then [v.relpath] else []
  }

  lemma JudgedAppend(judged: seq<Verdict>, v: Verdict)
    ensures SkippedOf(judged + [v]) == SkippedOf(judged) + if v.Skipped? then [v.name] else []
    ensures FilesOf(judged + [v]) == FilesOf(judged) + if v.File? then [v.relpath] else []
  {
    assert (judged + [v])[..|judged|] == judged;
  }

  function Paths(files: seq<Item>): (s: seq<string>)
    ensures |s| == |files| && forall i :: 0 <= i < |s| ==> s[i] == files[i].relpath
  {
    seq(|files|, i requires 0 <= i < |files| => files[i].relpath)
  }

  // ----- what the archive holds, told by the callbacks alone -----

  function Judged(nfc: string -> string, entries: seq<string>): (judged: seq<Verdict>)
    ensures |judged| == |entries|
  {
    if entries == [] then [] else Judged(nfc, entries[..|entries| - 1]) + [Judge(nfc, entries[|entries| - 1])]
  }

  lemma JudgedNext(nfc: string -> string, entries: seq<string>, name: string)
    ensures Judged(nfc, entries + [name]) == Judged(nfc, entries) + [Judge(nfc, name)]
  {
    assert (entries + [name])[..|entries|] == entries;
  }

  function NamesFound(events: seq<Event>): seq<string> {
    if events == [] then []
    else
      var e := events[|events| - 1];
      NamesFound(events[..|events| - 1]) + if e.Found? then [e.name] else []
  }

  /** The paths of the file entries, in the order in which they are found. */
  function FilesIn(nfc: string -> string, events: seq<Event>): seq<string> {
    FilesOf(Judged(nfc, NamesFound(events)))
  }

  /** The chunks of the `i`-th file entry. */
  function ChunksOf(events: seq<Event>, i: nat): seq<seq<byte>> {
    if events == [] then []
    else
      var e := events[|events| - 1];
      ChunksOf(events[..|events| - 1], i) + if e.Chunk? && e.file == i then [e.bytes] else []
  }

  /** The bytes of all chunks. */
  function Volume(events: seq<Event>): nat {
    if events == [] then 0
    else
      var e := events[|events| - 1];
      Volume(events[..|events| - 1]) + if e.Chunk? then |e.bytes| else 0
  }

  /** The `i`-th file entry has had its last chunk. */
  predicate Finished(events: seq<Event>, i: nat) {
    events != [] &&
    var e := events[|events| - 1];
    (e.Chunk? && e.file == i && e.last) || Finished(events[..|events| - 1], i)
  }

  /** The tree that the archive asks for. */
  function Held(nfc: string -> string, events: seq<Event>): (files: seq<Item>)
    ensures Paths(files) == FilesIn(nfc, events)
    ensures forall i :: 0 <= i < |files| ==> files[i].size == |Concat(ChunksOf(events, i))|
  {
    var paths := FilesIn(nfc, events);
    seq(|paths|, i requires 0 <= i < |paths| => Item(paths[i], |Concat(ChunksOf(events, i))|))
  }

  /** What the unzipper promises: a chunk belongs to a file entry found before that has not had its last chunk. */
  predicate Orderly(nfc: string -> string, events: seq<Event>) {
    events == [] ||
    var before, e := events[..|events| - 1], events[|events| - 1];
    && Orderly(nfc, before)
    && (e.Chunk? ==> e.kept <= |e.bytes| && e.file < |FilesIn(nfc, before)| && !Finished(before, e.file))
  }

  predicate EntryFits(l: Limits, paths: seq<string>, v: Verdict, opens: bool) {
    !v.Refused? && (v.File? ==> v.relpath !in paths && |paths| < l.maxFiles && opens)
  }

  predicate ChunkFits(l: Limits, before: seq<Event>, e: Event)
    requires e.Chunk?
  {
    && !e.broken && e.kept == |e.bytes| && (e.last ==> e.closes)
    && |Concat(ChunksOf(before, e.file))| + |e.bytes| <= l.maxFileBytes
    && Volume(before) + |e.bytes| <= l.maxBytes
  }

  /** Nothing is wrong with one callback, after those before it. */
  predicate Fits(nfc: string -> string, l: Limits, before: seq<Event>, e: Event) {
    if e.Found? then EntryFits(l, FilesIn(nfc, before), Judge(nfc, e.name), e.opens) else ChunkFits(l, before, e)
  }

  predicate AllFit(nfc: string -> string, l: Limits, events: seq<Event>) {
    events == [] ||
    var before, e := events[..|events| - 1], events[|events| - 1];
    AllFit(nfc, l, before) && Fits(nfc, l, before, e)
  }

  function AllEvents(pushes: seq<Push>): seq<Event> {
    if pushes == [] then [] else AllEvents(pushes[..|pushes| - 1]) + pushes[|pushes| - 1].events
  }

  predicate Throws(pushes: seq<Push>) {
    exists k :: 0 <= k < |pushes| && pushes[k].throws
  }

  /** An archive that should be extracted. */
  predicate Extractable(nfc: string -> string, l: Limits, pushes: seq<Push>) {
    var events := AllEvents(pushes);
    && !Throws(pushes)
    && AllFit(nfc, l, events)
    && (forall i :: 0 <= i < |FilesIn(nfc, events)| ==> Finished(events, i))
    && PreflightTree(nfc, Held(nfc, events), l) == None
  }

  lemma OneMoreEvent(events: seq<Event>, e: Event, i: nat)
    ensures NamesFound(events + [e]) == if e.Found? then NamesFound(events) + [e.name] else NamesFound(events)
    ensures ChunksOf(events + [e], i) ==
            if e.Chunk? && e.file == i then ChunksOf(events, i) + [e.bytes] else ChunksOf(events, i)
    ensures Volume(events + [e]) == Volume(events) + if e.Chunk? then |e.bytes| else 0
    ensures Finished(events + [e], i) <==> Finished(events, i) || (e.Chunk? && e.file == i && e.last)
  {
    assert (events + [e])[..|events|] == events;
  }

  lemma FitsOneMore(nfc: string -> string, l: Limits, events: seq<Event>, e: Event)
    ensures AllFit(nfc, l, events + [e]) <==> AllFit(nfc, l, events) && Fits(nfc, l, events, e)
  {
    assert (events + [e])[..|events|] == events;
  }

  /** What holds of all callbacks holds of the first of them. */
  lemma {:induction false} PrefixFits(nfc: string -> string, l: Limits, before: seq<Event>, events: seq<Event>)
    requires before <= events
    ensures AllFit(nfc, l, events) ==> AllFit(nfc, l, before)
    ensures Orderly(nfc, events) ==> Orderly(nfc, before)
    decreases |events|
  {
    if before != events {
      PrefixFits(nfc, l, before, events[..|events| - 1]);
    }
  }

  lemma NextOf(before: seq<Event>, events: seq<Event>, k: nat)
    requires k < |events|
    ensures before + events[..k + 1] == before + events[..k] + [events[k]] <= before + events
  {
    assert events[..k + 1] == events[..k] + [events[k]];
  }

  lemma EventsOfNext(pushes: seq<Push>, k: nat)
    requires k < |pushes|
    ensures AllEvents(pushes[..k]) + pushes[k].events == AllEvents(pushes[..k + 1]) <= AllEvents(pushes)
  {
    assert pushes[..k + 1][..k] == pushes[..k];
    EventsOfPrefix(pushes, k + 1);
  }

  lemma ThrowsNext(pushes: seq<Push>, k: nat)
    requires k < |pushes|
    ensures Throws(pushes[..k + 1]) <==> Throws(pushes[..k]) || pushes[k].throws
    ensures Throws(pushes[..k + 1]) ==> Throws(pushes)
  {
    var next := pushes[..k + 1];
    assert next[k] == pushes[k];
    assert forall j :: 0 <= j < k ==> next[j] == pushes[..k][j];
    assert forall j :: 0 <= j <= k ==> next[j] == pushes[j];
  }

  /** Whatever goes wrong at some push is a reason not to extract. */
  lemma WrongIsNotExtractable(nfc: string -> string, l: Limits, pushes: seq<Push>, k: nat)
    requires k < |pushes| && (pushes[k].throws || !AllFit(nfc, l, AllEvents(pushes[..k + 1])))
    ensures !Extractable(nfc, l, pushes)
  {
    ThrowsNext(pushes, k);
    EventsOfNext(pushes, k);
    PrefixFits(nfc, l, AllEvents(pushes[..k + 1]), AllEvents(pushes));
  }

  lemma {:induction false} EventsOfPrefix(pushes: seq<Push>, n: nat)
    requires n <= |pushes|
    ensures AllEvents(pushes[..n]) <= AllEvents(pushes)
    decreases |pushes|
  {
    if n == |pushes| {
      assert pushes[..n] == pushes;
    } else {
      var last := |pushes| - 1;
      assert pushes[..last][..n] == pushes[..n];
      EventsOfPrefix(pushes[..last], n);
    }
  }

  lemma {:induction false} DistinctInside(paths: seq<string>, names: set<string>)
    requires forall i :: 0 <= i < |paths| ==> paths[i] in names
    requires forall i, j :: 0 <= i < j < |paths| ==> paths[i] != paths[j]
    ensures |paths| <= |names|
  {
    if paths != [] {
      var last := |paths| - 1;
      DistinctInside(paths[..last], names - {paths[last]});
    }
  }

  // ----- the accounts -----

  /** The list of files: distinct paths, all of them in the names. */
  ghost predicate Listed(l: Limits, files: seq<Item>, names: set<string>) {
    && |files| <= l.maxFiles
    && (forall i :: 0 <= i < |files| ==> files[i].relpath in names)
    && (forall i, j :: 0 <= i < j < |files| ==> files[i].relpath != files[j].relpath)
  }

  /** The books of the bytes: given by the unzipper, counted, and written. */
  ghost predicate Balanced(l: Limits, files: seq<Item>, given: seq<seq<seq<byte>>>, disk: seq<seq<byte>>, total: nat) {
    && |given| == |disk| == |files|
    && total == TotalSize(files)
    && Sum(Lengths(disk)) <= l.maxBytes
    && (forall i :: 0 <= i < |files| ==>
          files[i].size == |Concat(given[i])| && disk[i] <= Concat(given[i]) && |disk[i]| <= l.maxFileBytes)
  }

  /** Nothing went wrong so far. */
  ghost predicate Intact(given: seq<seq<seq<byte>>>, disk: seq<seq<byte>>)
    requires |given| == |disk|
  {
    forall i :: 0 <= i < |disk| ==> disk[i] == Concat(given[i])
  }

  lemma OneMoreFile(l: Limits, files: seq<Item>, given: seq<seq<seq<byte>>>, disk: seq<seq<byte>>, total: nat,
                    p: string)
    requires Balanced(l, files, given, disk, total)
    ensures Balanced(l, files + [Item(p, 0)], given + [[]], disk + [[]], total)
    ensures Intact(given, disk) ==> Intact(given + [[]], disk + [[]])
  {
    SumAppend(Sizes(files), 0);
    SumAppend(Lengths(disk), 0);
    assert Sizes(files + [Item(p, 0)]) == Sizes(files) + [0];
    assert Lengths(disk + [[]]) == Lengths(disk) + [0];
  }

  /** A chunk is counted, and `kept` of its bytes are written if it is within the limits. */
  lemma OneMoreChunk(l: Limits, files: seq<Item>, given: seq<seq<seq<byte>>>, disk: seq<seq<byte>>, total: nat,
                     i: nat, bytes: seq<byte>, kept: nat)
    requires Balanced(l, files, given, disk, total) && Intact(given, disk) && i < |files| && kept <= |bytes|
    requires kept == 0 || (files[i].size + |bytes| <= l.maxFileBytes && total + |bytes| <= l.maxBytes)
    ensures
      var files' := files[i := files[i].(size := files[i].size + |bytes|)];
      var given', disk' := given[i := given[i] + [bytes]], disk[i := disk[i] + bytes[..kept]];
      && Balanced(l, files', given', disk', total + |bytes|)
      && (kept == |bytes| ==> Intact(given', disk'))
  {
    var size, part := files[i].size + |bytes|, disk[i] + bytes[..kept];
    SizesUpdate(files, i, size);
    LengthsUpdate(disk, i, part);
    assert Lengths(disk) == Sizes(files);
    ChunkAppended(given[i], disk[i], bytes, kept);
  }

  lemma SizesUpdate(files: seq<Item>, i: nat, size: nat)
    requires i < |files|
    ensures TotalSize(files[i := files[i].(size := size)]) == TotalSize(files) - files[i].size + size
  {
    SumUpdate(Sizes(files), i, size);
    assert Sizes(files[i := files[i].(size := size)]) == Sizes(files)[i := size];
  }

  lemma LengthsUpdate(disk: seq<seq<byte>>, i: nat, part: seq<byte>)
    requires i < |disk|
    ensures Sum(Lengths(disk[i := part])) == Sum(Lengths(disk)) - |disk[i]| + |part|
  {
    SumUpdate(Lengths(disk), i, |part|);
    assert Lengths(disk[i := part]) == Lengths(disk)[i := |part|];
  }

  lemma ChunkAppended(given: seq<seq<byte>>, written: seq<byte>, bytes: seq<byte>, kept: nat)
    requires written == Concat(given) && kept <= |bytes|
    ensures Concat(given + [bytes]) == Concat(given) + bytes
    ensures written + bytes[..kept] <= Concat(given + [bytes])
    ensures kept == |bytes| ==> written + bytes[..kept] == Concat(given + [bytes])
  {
    ConcatAppend(given, bytes);
  }

  /**
   Everything a callback can touch. Besides the program's own variables: what the entries found stand for, the chunks
   counted for each file, what is on disk, the open descriptors, and the files whose last chunk was taken.
   */
  datatype Books = Books(
    files: seq<Item>,
    names: set<string>,
    handles: set<nat>,
    total: nat,
    failure: Option<Failure>,
    skipped: seq<string>,
    judged: seq<Verdict>,
    given: seq<seq<seq<byte>>>,
    disk: seq<seq<byte>>,
    descriptors: set<nat>,
    ended: set<nat>)

  const BLANK := Books([], {}, {}, 0, None, [], [], [], [], {}, {})

  /** As long as nothing failed, the files are the file entries judged, in order, each open until its last chunk. */
  ghost predicate Clean(b: Books, l: Limits) {
    && Paths(b.files) == FilesOf(b.judged)
    && Refused !in b.judged
    && (forall i :: 0 <= i < |b.files| ==> (i in b.ended <==> i !in b.handles))
    && (forall i :: i in b.ended ==> i < |b.files|)
    && (forall i :: 0 <= i < |b.files| ==> b.files[i].size <= l.maxFileBytes)
    && b.total <= l.maxBytes
  }

  /** What holds even after a failure. */
  ghost predicate InOrder(b: Books, l: Limits) {
    && Listed(l, b.files, b.names)
    && Balanced(l, b.files, b.given, b.disk, b.total)
    && b.handles == b.descriptors && (forall i :: i in b.handles ==> i < |b.files|)
    && b.skipped == SkippedOf(b.judged)
  }

  ghost predicate Good(b: Books, l: Limits) {
    InOrder(b, l) && (b.failure == None ==> Intact(b.given, b.disk) && Clean(b, l))
  }

  function OpenFile(b: Books, l: Limits, p: string, opens: bool): Books {
    if p in b.names then b.(failure := Some(DuplicatePath))
    else
      var named := b.(names := b.names + {p});
      if |named.names| > l.maxFiles then named.(failure := Some(TooManyFiles))
      else if !opens then named.(failure := Some(SystemError))
      else named.(files := b.files + [Item(p, 0)], handles := b.handles + {|b.files|},
                  given := b.given + [[]], disk := b.disk + [[]], descriptors := b.descriptors + {|b.files|})
  }

  /** The books after an entry is found; a failure before it changes nothing. */
  function Enter(b: Books, l: Limits, v: Verdict, opens: bool): Books {
    var seen := b.(judged := b.judged + [v]);
    match v
    case Refused => seen.(failure := Some(UnsafePath))
    case Skipped(name) => seen.(skipped := b.skipped + [name])
    case Folder => seen
    case File(p) => OpenFile(seen, l, p, opens)
  }

  /** The books after a chunk was counted. */
  function Counted(b: Books, i: nat, bytes: seq<byte>): Books
    requires i < |b.files| == |b.given|
  {
    b.(files := b.files[i := b.files[i].(size := b.files[i].size + |bytes|)], total := b.total + |bytes|,
       given := b.given[i := b.given[i] + [bytes]])
  }

  /** The books after a chunk for an open file. */
  function Receive(b: Books, l: Limits, i: nat, broken: bool, bytes: seq<byte>, last: bool, kept: nat,
                   closes: bool): Books
    requires kept <= |bytes| && (broken || b.failure.Some? || i < |b.files| == |b.given| == |b.disk|)
  {
    if broken then b.(failure := Some(BadArchive))
    else if b.failure.Some? then b
    else
      var counted := Counted(b, i, bytes);
      if counted.files[i].size > l.maxFileBytes || counted.total > l.maxBytes then counted.(failure := Some(TooLarge))
      else
        var written := counted.(disk := b.disk[i := b.disk[i] + bytes[..kept]]);
        if kept < |bytes| || (last && !closes) then written.(failure := Some(SystemError))
        else if !last then written
        else written.(handles := b.handles - {i}, descriptors := b.descriptors - {i}, ended := b.ended + {i})
  }

  /** The file of a chunk is known, unless the chunk is ignored. */
  predicate Known(b: Books, e: Event) {
    e.Chunk? ==>
      && e.kept <= |e.bytes|
      && (e.broken || b.failure.Some? || e.file < |b.files| == |b.given| == |b.disk|)
  }

  /** The books after a callback. */
  function Next(nfc: string -> string, b: Books, l: Limits, e: Event): Books
    requires Known(b, e)
  {
    match e
    case Found(name, opens) => Enter(b, l, Judge(nfc, name), opens)
    case Chunk(i, broken, bytes, last, kept, closes) => Receive(b, l, i, broken, bytes, last, kept, closes)
  }

  lemma OpenedIsListed(b: Books, l: Limits, p: string)
    requires Listed(l, b.files, b.names) && p !in b.names && |b.names + {p}| <= l.maxFiles
    ensures Listed(l, b.files + [Item(p, 0)], b.names + {p})
  {
    DistinctInside(Paths(b.files), b.names);
  }

  lemma PathsAppend(files: seq<Item>, item: Item)
    ensures Paths(files + [item]) == Paths(files) + [item.relpath]
  {
  }

  lemma OpenedIsClean(b: Books, l: Limits, p: string)
    requires Clean(b, l) && b.handles == b.descriptors
    requires p !in b.names && |b.names + {p}| <= l.maxFiles
    ensures Clean(Enter(b, l, File(p), true), l)
  {
    JudgedAppend(b.judged, File(p));
    PathsAppend(b.files, Item(p, 0));
    var b' := Enter(b, l, File(p), true);
    assert b'.files == b.files + [Item(p, 0)] && b'.judged == b.judged + [File(p)];
    assert b'.handles == b.handles + {|b.files|} && b'.ended == b.ended && b'.total == b.total;
    assert Paths(b'.files) == FilesOf(b'.judged);
    forall i | 0 <= i < |b'.files|
      ensures i in b'.ended <==> i !in b'.handles
      ensures b'.files[i].size <= l.maxFileBytes
    {
      assert i < |b.files| ==> b'.files[i] == b.files[i];
    }
  }

  lemma KeepOpenFile(b: Books, l: Limits, p: string, opens: bool)
    requires Good(b, l)
    ensures Good(Enter(b, l, File(p), opens), l)
  {
    JudgedAppend(b.judged, File(p));
    if p !in b.names && |b.names + {p}| <= l.maxFiles && opens {
      OpenedIsListed(b, l, p);
      OneMoreFile(l, b.files, b.given, b.disk, b.total, p);
      if b.failure == None {
        OpenedIsClean(b, l, p);
      }
    }
  }

  /** Finding an entry keeps the books in order. */
  lemma KeepEnter(b: Books, l: Limits, v: Verdict, opens: bool)
    requires Good(b, l)
    ensures Good(Enter(b, l, v, opens), l)
  {
    if v.File? {
      KeepOpenFile(b, l, v.relpath, opens);
    } else {
      JudgedAppend(b.judged, v);
    }
  }

  lemma CountedIsListed(b: Books, l: Limits, i: nat, size: nat)
    requires Listed(l, b.files, b.names) && i < |b.files|
    ensures Listed(l, b.files[i := b.files[i].(size := size)], b.names)
    ensures Paths(b.files[i := b.files[i].(size := size)]) == Paths(b.files)
  {
  }

  lemma ReceivedIsClean(b: Books, l: Limits, i: nat, bytes: seq<byte>, last: bool)
    requires Good(b, l) && i in b.handles && b.failure == None
    requires b.files[i].size + |bytes| <= l.maxFileBytes && b.total + |bytes| <= l.maxBytes
    ensures Clean(Receive(b, l, i, false, bytes, last, |bytes|, true), l)
  {
    CountedIsListed(b, l, i, b.files[i].size + |bytes|);
  }

  lemma WrittenInOrder(b: Books, l: Limits, i: nat, bytes: seq<byte>, kept: nat)
    requires InOrder(b, l) && Intact(b.given, b.disk) && i in b.handles && kept <= |bytes|
    requires kept == 0 || (b.files[i].size + |bytes| <= l.maxFileBytes && b.total + |bytes| <= l.maxBytes)
    ensures
      var b' := Counted(b, i, bytes).(disk := b.disk[i := b.disk[i] + bytes[..kept]]);
      InOrder(b', l) && (kept == |bytes| ==> Intact(b'.given, b'.disk))
  {
    CountedIsListed(b, l, i, b.files[i].size + |bytes|);
    OneMoreChunk(l, b.files, b.given, b.disk, b.total, i, bytes, kept);
  }

  lemma KeepTooMuch(b: Books, l: Limits, i: nat, bytes: seq<byte>, last: bool, kept: nat, closes: bool)
    requires InOrder(b, l) && Intact(b.given, b.disk) && i in b.handles && kept <= |bytes| && b.failure == None
    requires b.files[i].size + |bytes| > l.maxFileBytes || b.total + |bytes| > l.maxBytes
    ensures Good(Receive(b, l, i, false, bytes, last, kept, closes), l)
  {
    CountedInOrder(b, l, i, bytes);
  }

  lemma CountedInOrder(b: Books, l: Limits, i: nat, bytes: seq<byte>)
    requires InOrder(b, l) && Intact(b.given, b.disk) && i in b.handles
    ensures InOrder(Counted(b, i, bytes), l)
  {
    WrittenInOrder(b, l, i, bytes, 0);
    assert b.disk[i := b.disk[i] + bytes[..0]] == b.disk by {
      assert b.disk[i] + bytes[..0] == b.disk[i];
    }
  }

  lemma KeepWrite(b: Books, l: Limits, i: nat, bytes: seq<byte>, last: bool, kept: nat, closes: bool)
    requires Good(b, l) && i in b.handles && kept <= |bytes| && b.failure == None
    requires b.files[i].size + |bytes| <= l.maxFileBytes && b.total + |bytes| <= l.maxBytes
    ensures Good(Receive(b, l, i, false, bytes, last, kept, closes), l)
  {
    WrittenInOrder(b, l, i, bytes, kept);
    if kept == |bytes| && (last ==> closes) {
      ReceivedIsClean(b, l, i, bytes, last);
    }
  }

  /** Taking a chunk for an open file does too. */
  lemma KeepReceive(b: Books, l: Limits, i: nat, broken: bool, bytes: seq<byte>, last: bool, kept: nat, closes: bool)
    requires Good(b, l) && kept <= |bytes| && (b.failure == None ==> i in b.handles)
    ensures Good(Receive(b, l, i, broken, bytes, last, kept, closes), l)
  {
    if !broken && b.failure == None {
      if b.files[i].size + |bytes| > l.maxFileBytes || b.total + |bytes| > l.maxBytes {
        KeepTooMuch(b, l, i, bytes, last, kept, closes);
      } else {
        KeepWrite(b, l, i, bytes, last, kept, closes);
      }
    }
  }

  // ----- the books report the callbacks -----

  /** The chunks of a file, and whether it is finished. */
  ghost predicate FileTold(chunks: seq<seq<byte>>, over: bool, events: seq<Event>, i: nat) {
    chunks == ChunksOf(events, i) && (over <==> Finished(events, i))
  }

  /** There are chunks for the first `n` files only. */
  predicate NoneBeyond(events: seq<Event>, n: nat) {
    events == [] ||
    var e := events[|events| - 1];
    (e.Chunk? ==> e.file < n) && NoneBeyond(events[..|events| - 1], n)
  }

  /** The chunks of the files and their sum, and which files are finished. */
  ghost predicate ChunksTold(given: seq<seq<seq<byte>>>, ended: set<nat>, total: nat, events: seq<Event>) {
    && total == Volume(events) && NoneBeyond(events, |given|)
    && (forall i :: 0 <= i < |given| ==> FileTold(given[i], i in ended, events, i))
    && (forall i :: i in ended ==> i < |given|)
  }

  lemma {:induction false} NoChunks(events: seq<Event>, i: nat)
    requires NoneBeyond(events, i)
    ensures ChunksOf(events, i) == [] && !Finished(events, i)
  {
    if events != [] {
      NoChunks(events[..|events| - 1], i);
    }
  }

  lemma NoneBeyondNext(events: seq<Event>, n: nat, e: Event)
    requires NoneBeyond(events, n) && (e.Chunk? ==> e.file < n)
    ensures NoneBeyond(events + [e], n)
  {
    assert (events + [e])[..|events|] == events;
  }

  lemma {:induction false} OneMoreAllowed(events: seq<Event>, n: nat)
    requires NoneBeyond(events, n)
    ensures NoneBeyond(events, n + 1)
  {
    if events != [] {
      OneMoreAllowed(events[..|events| - 1], n);
    }
  }

  lemma FileStaysTold(chunks: seq<seq<byte>>, over: bool, events: seq<Event>, i: nat, e: Event)
    requires FileTold(chunks, over, events, i)
    ensures if e.Chunk? && e.file == i then FileTold(chunks + [e.bytes], over || e.last, events + [e], i)
            else FileTold(chunks, over, events + [e], i)
  {
    OneMoreEvent(events, e, i);
  }

  lemma ChunksStayTold(given: seq<seq<seq<byte>>>, ended: set<nat>, total: nat, events: seq<Event>, e: Event)
    requires ChunksTold(given, ended, total, events) && e.Found?
    ensures ChunksTold(given, ended, total, events + [e])
  {
    VolumeNext(events, e);
    NoneBeyondNext(events, |given|, e);
    forall i | 0 <= i < |given|
      ensures FileTold(given[i], i in ended, events + [e], i)
    {
      FileStaysTold(given[i], i in ended, events, i, e);
    }
  }

  lemma NewFileIsTold(given: seq<seq<seq<byte>>>, ended: set<nat>, total: nat, events: seq<Event>)
    requires ChunksTold(given, ended, total, events)
    ensures ChunksTold(given + [[]], ended, total, events)
  {
    NoChunks(events, |given|);
    OneMoreAllowed(events, |given|);
    assert FileTold([], false, events, |given|);
  }

  lemma VolumeNext(events: seq<Event>, e: Event)
    ensures Volume(events + [e]) == Volume(events) + if e.Chunk? then |e.bytes| else 0
  {
    OneMoreEvent(events, e, 0);
  }

  lemma FilesCounted(given: seq<seq<seq<byte>>>, ended: set<nat>, total: nat, events: seq<Event>, e: Event, i: nat)
    requires ChunksTold(given, ended, total, events) && e.Chunk? && e.file < |given| && i < |given|
    ensures FileTold(given[e.file := given[e.file] + [e.bytes]][i],
                     i in if e.last then ended + {e.file} else ended, events + [e], i)
  {
    FileStaysTold(given[i], i in ended, events, i, e);
  }

  lemma ChunkIsCounted(given: seq<seq<seq<byte>>>, ended: set<nat>, total: nat, events: seq<Event>, e: Event)
    requires ChunksTold(given, ended, total, events) && e.Chunk? && e.file < |given|
    ensures ChunksTold(given[e.file := given[e.file] + [e.bytes]], if e.last then ended + {e.file} else ended,
                       total + |e.bytes|, events + [e])
  {
    var given' := given[e.file := given[e.file] + [e.bytes]];
    var ended' := if e.last then ended + {e.file} else ended;
    VolumeNext(events, e);
    NoneBeyondNext(events, |given|, e);
    forall i | 0 <= i < |given|
      ensures FileTold(given'[i], i in ended', events + [e], i)
    {
      FilesCounted(given, ended, total, events, e, i);
    }
  }

  /** The names are those of the files. */
  ghost predicate NamesTold(names: set<string>, paths: seq<string>) {
    |names| == |paths| && forall p :: p in names <==> p in paths
  }

  lemma JudgedFound(nfc: string -> string, events: seq<Event>, name: string, opens: bool, v: Verdict)
    requires v == Judge(nfc, name)
    ensures Judged(nfc, NamesFound(events + [Found(name, opens)])) == Judged(nfc, NamesFound(events)) + [v]
    ensures FilesIn(nfc, events + [Found(name, opens)]) ==
            if v.File? then FilesIn(nfc, events) + [v.relpath] else FilesIn(nfc, events)
  {
    OneMoreEvent(events, Found(name, opens), 0);
    JudgedNext(nfc, NamesFound(events), name);
    JudgedAppend(Judged(nfc, NamesFound(events)), v);
  }

  /** Something failed exactly when something was wrong with a callback; until then the books are the callbacks. */
  ghost predicate Reports(b: Books, judged: seq<Verdict>, fine: bool, events: seq<Event>) {
    && b.judged == judged
    && (b.failure == None <==> fine)
    && (fine ==> ChunksTold(b.given, b.ended, b.total, events) && NamesTold(b.names, FilesOf(judged)))
  }

  lemma NameIsTold(names: set<string>, paths: seq<string>, p: string)
    requires NamesTold(names, paths) && p !in names
    ensures NamesTold(names + {p}, paths + [p])
  {
  }

  lemma OpenIsReported(b: Books, l: Limits, events: seq<Event>, e: Event, p: string)
    requires Reports(b, b.judged, true, events) && e.Found?
    ensures Reports(OpenFile(b.(judged := b.judged + [File(p)]), l, p, e.opens), b.judged + [File(p)],
                    EntryFits(l, FilesOf(b.judged), File(p), e.opens), events + [e])
  {
    JudgedAppend(b.judged, File(p));
    ChunksStayTold(b.given, b.ended, b.total, events, e);
    NewFileIsTold(b.given, b.ended, b.total, events + [e]);
    if p !in b.names {
      NameIsTold(b.names, FilesOf(b.judged), p);
      assert |b.names + {p}| == |FilesOf(b.judged)| + 1;
    }
  }

  /** An entry that is found enters the books. */
  lemma EntryIsReported(b: Books, l: Limits, fine: bool, events: seq<Event>, name: string, v: Verdict, opens: bool)
    requires Reports(b, b.judged, fine, events)
    ensures Reports(Enter(b, l, v, opens), b.judged + [v], fine && EntryFits(l, FilesOf(b.judged), v, opens),
                    events + [Found(name, opens)])
  {
    if fine && v.File? {
      OpenIsReported(b, l, events, Found(name, opens), v.relpath);
    } else if fine {
      JudgedAppend(b.judged, v);
      ChunksStayTold(b.given, b.ended, b.total, events, Found(name, opens));
    }
  }

  /** A chunk may come for a file that is open. */
  lemma OrderlyIsOpen(b: Books, l: Limits, events: seq<Event>, i: nat)
    requires Good(b, l) && Reports(b, b.judged, true, events)
    requires i < |FilesOf(b.judged)| && !Finished(events, i)
    ensures i in b.handles && i < |b.files| == |b.given| == |b.disk|
  {
    assert |FilesOf(b.judged)| == |Paths(b.files)|;
  }

  /** A chunk is taken, or fails for a reason that can be seen in the callbacks. */
  lemma ChunkIsReported(b: Books, l: Limits, fine: bool, events: seq<Event>, e: Event)
    requires Reports(b, b.judged, fine, events) && e.Chunk? && e.kept <= |e.bytes|
    requires fine ==> e.file < |b.files| == |b.given| == |b.disk|
    requires fine ==> b.files[e.file].size == |Concat(b.given[e.file])|
    ensures Reports(Receive(b, l, e.file, e.broken, e.bytes, e.last, e.kept, e.closes), b.judged,
                    fine && ChunkFits(l, events, e), events + [e])
  {
    if fine {
      ChunkIsCounted(b.given, b.ended, b.total, events, e);
    }
  }

  /** The books are in order and report the callbacks. */
  ghost predicate Tells(nfc: string -> string, l: Limits, b: Books, events: seq<Event>) {
    Good(b, l) && Reports(b, Judged(nfc, NamesFound(events)), AllFit(nfc, l, events), events)
  }

  /** Finding an entry keeps the books telling. */
  lemma EntryTells(nfc: string -> string, l: Limits, b: Books, events: seq<Event>, name: string, opens: bool)
    requires Tells(nfc, l, b, events)
    ensures Tells(nfc, l, Enter(b, l, Judge(nfc, name), opens), events + [Found(name, opens)])
  {
    var v := Judge(nfc, name);
    KeepEnter(b, l, v, opens);
    JudgedFound(nfc, events, name, opens, v);
    FitsOneMore(nfc, l, events, Found(name, opens));
    EntryIsReported(b, l, AllFit(nfc, l, events), events, name, v, opens);
  }

  /** So does taking a chunk of an orderly unzipper. */
  lemma ChunkTells(nfc: string -> string, l: Limits, b: Books, events: seq<Event>, e: Event)
    requires Tells(nfc, l, b, events) && e.Chunk? && Orderly(nfc, events + [e])
    ensures Known(b, e)
    ensures Tells(nfc, l, Receive(b, l, e.file, e.broken, e.bytes, e.last, e.kept, e.closes), events + [e])
  {
    assert (events + [e])[..|events|] == events;
    if b.failure == None {
      OrderlyIsOpen(b, l, events, e.file);
    }
    KeepReceive(b, l, e.file, e.broken, e.bytes, e.last, e.kept, e.closes);
    OneMoreEvent(events, e, 0);
    FitsOneMore(nfc, l, events, e);
    ChunkIsReported(b, l, AllFit(nfc, l, events), events, e);
  }

  lemma NextTells(nfc: string -> string, l: Limits, b: Books, events: seq<Event>, e: Event)
    requires Tells(nfc, l, b, events) && Orderly(nfc, events + [e])
    ensures Known(b, e) && Tells(nfc, l, Next(nfc, b, l, e), events + [e])
  {
    match e
    case Found(name, opens) => EntryTells(nfc, l, b, events, name, opens);
    case Chunk(_, _, _, _, _, _) => ChunkTells(nfc, l, b, events, e);
  }

  // ----- what success means -----

  lemma {:induction false} EveryFileIsCanonical(nfc: string -> string, entries: seq<string>)
    requires IsNfc(nfc)
    ensures forall p :: p in FilesOf(Judged(nfc, entries)) ==> Canonical(nfc, p)
  {
    if entries != [] {
      var before, name := entries[..|entries| - 1], entries[|entries| - 1];
      EveryFileIsCanonical(nfc, before);
      JudgedAppend(Judged(nfc, before), Judge(nfc, name));
      JudgedSoundly(nfc, name);
    }
  }

  /** The tree on disk is what the archive holds: one file per file entry, in order, complete and within the limits. */
  ghost predicate Complete(nfc: string -> string, l: Limits, events: seq<Event>, b: Books) {
    && b.handles == b.descriptors == {}
    && b.files == Held(nfc, events) && b.skipped == SkippedOf(Judged(nfc, NamesFound(events)))
    && Refused !in Judged(nfc, NamesFound(events))
    && (forall i, j :: 0 <= i < j < |b.files| ==> b.files[i].relpath != b.files[j].relpath)
    && |b.disk| == |b.files| <= l.maxFiles
    && (forall i :: 0 <= i < |b.files| ==> Finished(events, i) && b.disk[i] == Concat(ChunksOf(events, i)))
    && (forall i :: 0 <= i < |b.files| ==> |b.disk[i]| == b.files[i].size <= l.maxFileBytes)
    && b.total == Sum(Lengths(b.disk)) <= l.maxBytes
  }

  lemma WrittenIsCounted(b: Books, l: Limits)
    requires Balanced(l, b.files, b.given, b.disk, b.total) && Intact(b.given, b.disk)
    ensures b.total == Sum(Lengths(b.disk))
    ensures forall i :: 0 <= i < |b.files| ==> |b.disk[i]| == b.files[i].size
  {
    assert Lengths(b.disk) == Sizes(b.files);
  }

  lemma OpenIffUnfinished(nfc: string -> string, l: Limits, events: seq<Event>, b: Books, i: nat)
    requires Tells(nfc, l, b, events) && b.failure == None && i < |b.files|
    ensures i in b.handles <==> !Finished(events, i)
    ensures b.files[i] == Item(FilesIn(nfc, events)[i], |Concat(ChunksOf(events, i))|)
  {
    assert FileTold(b.given[i], i in b.ended, events, i);
    assert b.files[i].relpath == Paths(b.files)[i];
  }

  lemma FilesAreHeld(nfc: string -> string, l: Limits, events: seq<Event>, b: Books)
    requires Tells(nfc, l, b, events) && b.failure == None
    ensures b.files == Held(nfc, events) && |b.files| == |FilesIn(nfc, events)|
  {
    assert Paths(b.files) == FilesIn(nfc, events) == Paths(Held(nfc, events));
    forall i | 0 <= i < |b.files|
      ensures b.files[i] == Held(nfc, events)[i]
    {
      OpenIffUnfinished(nfc, l, events, b, i);
      assert Paths(Held(nfc, events))[i] == FilesIn(nfc, events)[i];
    }
  }

  /** When every callback went well, no handle is open exactly when every file entry has had its last chunk. */
  lemma AllClosedIffAllFinished(nfc: string -> string, l: Limits, events: seq<Event>, b: Books)
    requires Tells(nfc, l, b, events) && b.failure == None
    ensures b.handles == {} <==> forall i :: 0 <= i < |FilesIn(nfc, events)| ==> Finished(events, i)
  {
    FilesAreHeld(nfc, l, events, b);
    if i :| i in b.handles {
      OpenIffUnfinished(nfc, l, events, b, i);
    } else {
      forall i | 0 <= i < |b.files|
        ensures Finished(events, i)
      {
        OpenIffUnfinished(nfc, l, events, b, i);
      }
    }
  }

  /** When moreover no handle is open, the tree is complete. */
  lemma CleanBooksAreComplete(nfc: string -> string, l: Limits, events: seq<Event>, b: Books)
    requires Tells(nfc, l, b, events) && b.failure == None && b.handles == {}
    ensures Complete(nfc, l, events, b)
  {
    WrittenIsCounted(b, l);
    FilesAreHeld(nfc, l, events, b);
    forall i | 0 <= i < |b.files|
      ensures b.given[i] == ChunksOf(events, i) && Finished(events, i)
    {
      assert FileTold(b.given[i], i in b.ended, events, i);
    }
  }

  /** All that can still be held against a complete tree is a missing entry page. */
  lemma CompleteTreePassesPreflight(nfc: string -> string, l: Limits, events: seq<Event>, b: Books)
    requires IsNfc(nfc) && Complete(nfc, l, events, b)
    ensures forall i :: 0 <= i < |b.files| ==> Canonical(nfc, b.files[i].relpath)
    ensures PreflightTree(nfc, b.files, l) in {None, Some(NoEntryPage)}
  {
    EveryFileIsCanonical(nfc, NamesFound(events));
    assert Lengths(b.disk) == Sizes(b.files);
    forall i | 0 <= i < |b.files|
      ensures Canonical(nfc, b.files[i].relpath) && SafeRelativePath(nfc, b.files[i].relpath).Safe?
    {
      assert Paths(b.files)[i] == b.files[i].relpath;
      UnchangedIffCanonical(nfc, b.files[i].relpath);
    }
  }

  /** No more was written than the limits allow. */
  ghost predicate InBounds(disk: seq<seq<byte>>, l: Limits) {
    Sum(Lengths(disk)) <= l.maxBytes && forall i :: 0 <= i < |disk| ==> |disk[i]| <= l.maxFileBytes
  }

  lemma TellsInBounds(nfc: string -> string, l: Limits, b: Books, events: seq<Event>)
    requires Tells(nfc, l, b, events)
    ensures InBounds(b.disk, l)
  {
  }

  lemma BlankTells(nfc: string -> string, l: Limits)
    ensures Tells(nfc, l, BLANK, [])
  {
  }

  /** What is left to decide at the end, when nothing failed. */
  lemma EndDecides(nfc: string -> string, l: Limits, pushes: seq<Push>, b: Books)
    requires IsNfc(nfc) && Tells(nfc, l, b, AllEvents(pushes)) && b.failure == None && !Throws(pushes)
    ensures InBounds(b.disk, l)
    ensures b.handles == {} && PreflightTree(nfc, b.files, l) == None <==> Extractable(nfc, l, pushes)
    ensures b.handles == {} ==> Complete(nfc, l, AllEvents(pushes), b)
    ensures b.handles == {} ==> forall i :: 0 <= i < |b.files| ==> Canonical(nfc, b.files[i].relpath)
  {
    AllClosedIffAllFinished(nfc, l, AllEvents(pushes), b);
    FilesAreHeld(nfc, l, AllEvents(pushes), b);
    if b.handles == {} {
      CleanBooksAreComplete(nfc, l, AllEvents(pushes), b);
      CompleteTreePassesPreflight(nfc, l, AllEvents(pushes), b);
    }
  }

  class Extraction {
    const nfc: string -> string
    const limits: Limits
    var files: seq<Item>
    var names: set<string>
    var handles: set<nat>
    var skipped: seq<string>
    var total: nat
    var failure: Option<Failure>
    /** Whether the private directory still exists. */
    var present: bool
    ghost var judged: seq<Verdict>
    ghost var given: seq<seq<seq<byte>>>
    ghost var disk: seq<seq<byte>>
    ghost var descriptors: set<nat>
    ghost var ended: set<nat>

    constructor (nfc: string -> string, limits: Limits)
      ensures this.nfc == nfc && this.limits == limits && present && Account() == BLANK
    {
      this.nfc, this.limits := nfc, limits;
      files, names, handles, skipped, total, failure := [], {}, {}, [], 0, None;
      judged, given, disk, descriptors, ended, present := [], [], [], {}, {}, true;
    }

    ghost function Account(): Books
      reads this
    {
      Books(files, names, handles, total, failure, skipped, judged, given, disk, descriptors, ended)
    }

    /** The callback for an entry. It runs even when something failed before it. */
    method OnEntry(name: string, opens: bool)
      modifies this
      ensures Account() == Enter(old(Account()), limits, Judge(nfc, name), opens) && present == old(present)
    {
      var v := Judge(nfc, name);
      judged := judged + [v];
      match v
      case Refused =>
        failure := Some(UnsafePath);
      case Skipped(_) =>
        skipped := skipped + [v.name];
      case Folder =>
      case File(p) =>
        Open(p, opens);
    }

    method Open(p: string, opens: bool)
      modifies this`files, this`names, this`failure, this`handles, this`given, this`disk, this`descriptors
      ensures Account() == OpenFile(old(Account()), limits, p, opens)
    {
      if p in names {
        failure := Some(DuplicatePath);
        return;
      }
      names := names + {p};
      if |names| > limits.maxFiles || !opens {
        failure := Some(if |names| > limits.maxFiles then TooManyFiles else SystemError);
        return;
      }
      handles, descriptors := handles + {|files|}, descriptors + {|files|};
      files := files + [Item(p, 0)];
      given, disk := given + [[]], disk + [[]];
    }

    /** The callback for a chunk. */
    method OnData(i: nat, broken: bool, bytes: seq<byte>, last: bool, kept: nat, closes: bool)
      requires kept <= |bytes| && (broken || failure.Some? || i < |files| == |given| == |disk|)
      modifies this`files, this`total, this`failure, this`handles, this`given, this`disk, this`descriptors, this`ended
      ensures Account() == Receive(old(Account()), limits, i, broken, bytes, last, kept, closes)
    {
      if broken {
        failure := Some(BadArchive);
        return;
      }
      if failure.Some? {
        return;
      }
      files := files[i := files[i].(size := files[i].size + |bytes|)];
      total := total + |bytes|;
      given := given[i := given[i] + [bytes]];
      if files[i].size > limits.maxFileBytes || total > limits.maxBytes {
        failure := Some(TooLarge);
        return;
      }
      disk := disk[i := disk[i] + bytes[..kept]];
      if kept < |bytes| || (last && !closes) {
        failure := Some(SystemError);
      } else if last {
        handles, descriptors, ended := handles - {i}, descriptors - {i}, ended + {i};
      }
    }

    /** One callback. */
    method Handle(event: Event)
      requires Known(Account(), event)
      modifies this
      ensures Account() == Next(nfc, old(Account()), limits, event) && present == old(present)
    {
      match event
      case Found(name, opens) => OnEntry(name, opens);
      case Chunk(i, broken, bytes, last, kept, closes) => OnData(i, broken, bytes, last, kept, closes);
    }

    /** The callbacks of one push, in any order. */
    method Deliver(events: seq<Event>, ghost before: seq<Event>)
      requires Tells(nfc, limits, Account(), before)
      requires Orderly(nfc, before + events)
      modifies this
      ensures Tells(nfc, limits, Account(), before + events) && present == old(present)
    {
      assert before + events[..0] == before;
      for k := 0 to |events|
        invariant Tells(nfc, limits, Account(), before + events[..k])
        invariant present == old(present)
      {
        NextOf(before, events, k);
        PrefixFits(nfc, limits, before + events[..k + 1], before + events);
        NextTells(nfc, limits, Account(), before + events[..k], events[k]);
        Handle(events[k]);
      }
      assert events[..|events|] == events;
    }

    /** The error path: every handle still open is closed, then the directory is removed. */
    method Abandon()
      requires handles == descriptors
      modifies this`descriptors, this`present
      ensures descriptors == {} && !present
    {
      var rest := handles;
      while rest != {}
        invariant rest == descriptors
        decreases |rest|
      {
        var fd :| fd in rest;
        rest := rest - {fd};
        descriptors := descriptors - {fd};
      }
      present := false;
    }

    /**
     The whole extraction, with an unzipper that keeps its promise. It succeeds exactly on the archives that should be
     extracted. On success the tree on disk is what the archive holds; on failure nothing stays behind. Either way
     every handle is closed and no more was written than the limits allow.
     */
    method ExtractZip(pushes: seq<Push>) returns (error: Option<Failure>)
      requires IsNfc(nfc) && Account() == BLANK && present
      requires Orderly(nfc, AllEvents(pushes))
      modifies this
      ensures descriptors == {} && present == (error == None)
      ensures InBounds(disk, limits)
      ensures error == None <==> Extractable(nfc, limits, pushes)
      ensures error == None ==>
        && Complete(nfc, limits, AllEvents(pushes), Account())
        && forall i :: 0 <= i < |files| ==> Canonical(nfc, files[i].relpath)
    {
      BlankTells(nfc, limits);
      for k := 0 to |pushes|
        invariant Tells(nfc, limits, Account(), AllEvents(pushes[..k])) && present && !failure.Some?
        invariant Throws(pushes[..k]) == false
      {
        error := Feed(pushes, k);
        if error.Some? {
          return;
        }
      }
      assert pushes[..|pushes|] == pushes;
      error := Conclude(pushes);
    }

    /** The end of the archive, when nothing failed before it. */
    method Conclude(ghost pushes: seq<Push>) returns (error: Option<Failure>)
      requires IsNfc(nfc) && Tells(nfc, limits, Account(), AllEvents(pushes)) && present && !failure.Some?
      requires !Throws(pushes)
      modifies this`descriptors, this`present
      ensures descriptors == {} && present == (error == None)
      ensures InBounds(disk, limits)
      ensures error == None <==> Extractable(nfc, limits, pushes)
      ensures error == None ==>
        && Complete(nfc, limits, AllEvents(pushes), Account())
        && forall i :: 0 <= i < |files| ==> Canonical(nfc, files[i].relpath)
    {
      EndDecides(nfc, limits, pushes, Account());
      error := if handles != {} then Some(Truncated) else PreflightTree(nfc, files, limits);
      if error.Some? {
        Abandon();
      }
    }

    /** One push. */
    method Feed(pushes: seq<Push>, k: nat) returns (error: Option<Failure>)
      requires k < |pushes| && Orderly(nfc, AllEvents(pushes))
      requires Tells(nfc, limits, Account(), AllEvents(pushes[..k]))
      requires present && !failure.Some? && !Throws(pushes[..k])
      modifies this
      ensures InBounds(disk, limits)
      ensures error.Some? ==> descriptors == {} && !present && !Extractable(nfc, limits, pushes)
      ensures error == None ==>
        && Tells(nfc, limits, Account(), AllEvents(pushes[..k + 1])) && present && !failure.Some?
        && Throws(pushes[..k + 1]) == false
    {
      EventsOfNext(pushes, k);
      ThrowsNext(pushes, k);
      PrefixFits(nfc, limits, AllEvents(pushes[..k + 1]), AllEvents(pushes));
      Deliver(pushes[k].events, AllEvents(pushes[..k]));
      TellsInBounds(nfc, limits, Account(), AllEvents(pushes[..k + 1]));
      if failure.Some? || pushes[k].throws {
        error := if pushes[k].throws then Some(BadArchive) else failure;
        WrongIsNotExtractable(nfc, limits, pushes, k);
        Abandon();
        return;
      }
      error := None;
    }
  }
}
