/**
 Resumable upload of one archive in chunks: `uploadArchiveChunks` of cli/src/client.ts
 against the staging store of src/lib/mcp/files.ts. Runs may be interrupted anywhere,
 replies may be lost, and PUTs of dead clients may land at any later moment.
 */
module ChunkUpload {
  import opened Prelude

  const MAX_CHUNK: nat := 4 * 1024 * 1024

  datatype Put = Put(index: nat, data: seq<byte>, final: bool)

  /** The parts that the server has accepted, in order, and whether the last one was final. The worker later
      assembles them by concatenation. */
  datatype Staging = Staging(chunks: seq<seq<byte>>, sealed: bool)

  /** The server's bounds on the number of parts and on their bytes together. */
  datatype Limits = Limits(parts: nat, bytes: nat)

  /** `Busy`: another request holds the lease of the upload. */
  datatype Verdict = Accepted | Mismatch | Finalized | WrongIndex | TooMuch | WrongCount | Busy

  /** The answers of status 409. */
  predicate IsConflict(v: Verdict) {
    v.Mismatch? || v.Finalized? || v.WrongIndex? || v.Busy?
  }

  /** The part of a PUT that stores the bytes. */
  function Store(l: Limits, s: Staging, p: Put): (Staging, Verdict) {
    if p.index < |s.chunks| then (s, if s.chunks[p.index] == p.data then Accepted else Mismatch)
    else if s.sealed then (s, Finalized)
    else if p.index != |s.chunks| then (s, WrongIndex)
    else if |s.chunks| >= l.parts || |Concat(s.chunks)| + |p.data| > l.bytes then (s, TooMuch)
    else (s.(chunks := s.chunks + [p.data]), Accepted)
  }

  /** A PUT served to its end: a final one also seals. */
  function Serve(l: Limits, s: Staging, p: Put): (Staging, Verdict) {
    var (s1, verdict) := Store(l, s, p);
    if !verdict.Accepted? || !p.final then (s1, verdict)
    else if |s1.chunks| != p.index + 1 then (s1, WrongCount)
    else (s1.(sealed := true), Accepted)
  }

  // ----- what every PUT of the client satisfies, and what the store keeps -----

  /** `p` continues the first `p.index` parts with the next bytes of `file`. */
  ghost predicate Fits(file: seq<byte>, chunks: seq<seq<byte>>, p: Put) {
    && p.index <= |chunks|
    && var offset := |Concat(chunks[..p.index])|;
       && offset + |p.data| <= |file|
       && p.data == file[offset..offset + |p.data|]
       && (p.final ==> offset + |p.data| == |file|)
  }

  ghost predicate Good(file: seq<byte>, s: Staging) {
    Concat(s.chunks) <= file && (s.sealed ==> Concat(s.chunks) == file)
  }

  lemma StoreKeepsGood(l: Limits, file: seq<byte>, s: Staging, p: Put)
    requires Good(file, s) && Fits(file, s.chunks, p)
    ensures Good(file, Store(l, s, p).0)
    ensures s.chunks <= Store(l, s, p).0.chunks
  {
    if p.index == |s.chunks| {
      assert s.chunks[..p.index] == s.chunks;
      ConcatAppend(s.chunks, p.data);
    }
  }

  /** Whatever is staged is a prefix of the file, and what is sealed is the file. */
  lemma ServeKeepsGood(l: Limits, file: seq<byte>, s: Staging, p: Put)
    requires Good(file, s) && Fits(file, s.chunks, p)
    ensures Good(file, Serve(l, s, p).0)
    ensures s.chunks <= Serve(l, s, p).0.chunks
    ensures Serve(l, s, p).1.Accepted? ==>
      p.index < |Serve(l, s, p).0.chunks| && Serve(l, s, p).0.chunks[p.index] == p.data
    ensures Serve(l, s, p).1.Accepted? && p.final ==>
      Serve(l, s, p).0.sealed && Concat(Serve(l, s, p).0.chunks) == file
  {
    StoreKeepsGood(l, file, s, p);
    var s1 := Store(l, s, p).0;
    if Store(l, s, p).1.Accepted? && p.final && |s1.chunks| == p.index + 1 {
      assert s1.chunks == s1.chunks[..p.index] + [p.data];
      assert s1.chunks[..p.index] == s.chunks[..p.index];
      ConcatAppend(s1.chunks[..p.index], p.data);
    }
  }

  /** Parts are only ever appended, so a PUT on its way keeps fitting. */
  lemma FitsStays(file: seq<byte>, chunks: seq<seq<byte>>, chunks': seq<seq<byte>>, p: Put)
    requires chunks <= chunks' && Fits(file, chunks, p)
    ensures Fits(file, chunks', p)
  {
    assert chunks'[..p.index] == chunks[..p.index];
  }

  /** Sending an accepted PUT again changes nothing and is accepted again. */
  lemma ServeIsIdempotent(l: Limits, s: Staging, p: Put)
    requires Serve(l, s, p).1.Accepted?
    ensures Serve(l, Serve(l, s, p).0, p) == Serve(l, s, p)
  {
  }

  /** A refused PUT changes nothing, and is refused again. */
  lemma RefusedAgain(l: Limits, s: Staging, p: Put)
    ensures !Serve(l, s, p).1.Accepted? ==> Serve(l, Serve(l, s, p).0, p) == Serve(l, s, p)
  {
  }

  /** After a sealed upload no PUT changes the parts. */
  lemma SealedIsFinal(l: Limits, s: Staging, p: Put)
    requires s.sealed
    ensures Serve(l, s, p).0 == s && Store(l, s, p).0 == s
  {
  }

  // ----- the client -----

  /** The next PUT after `index` parts of together `offset` bytes; empty and final at the end of the file. */
  function NextPut(file: seq<byte>, offset: nat, index: nat, chunkBytes: nat): Put
    requires offset <= |file|
  {
    var size := if chunkBytes < |file| - offset then chunkBytes else |file| - offset;
    Put(index, file[offset..offset + size], offset + size == |file|)
  }

  lemma NextPutFits(file: seq<byte>, chunks: seq<seq<byte>>, index: nat, chunkBytes: nat)
    requires index <= |chunks| && |Concat(chunks[..index])| <= |file|
    ensures Fits(file, chunks, NextPut(file, |Concat(chunks[..index])|, index, chunkBytes))
  {
  }

  /** An accepted part moves the client's position over its bytes. */
  lemma PartAccepted(before: seq<seq<byte>>, after: seq<seq<byte>>, index: nat, data: seq<byte>)
    requires before <= after && index <= |before| && index < |after| && after[index] == data
    ensures Concat(after[..index + 1]) == Concat(before[..index]) + data
  {
    assert after[..index] == before[..index];
    assert after[..index + 1] == after[..index] + [data];
    ConcatAppend(after[..index], data);
  }

  /** What a client achieves that continues `s` and has every PUT answered: it stops when one is refused. */
  ghost function Continued(l: Limits, file: seq<byte>, s: Staging, chunkBytes: nat): Staging
    requires Good(file, s) && chunkBytes > 0
    decreases |file| - |Concat(s.chunks)|
  {
    var p := NextPut(file, |Concat(s.chunks)|, |s.chunks|, chunkBytes);
    ContinuingFits(l, file, s, chunkBytes);
    if s.sealed || p.final || !Serve(l, s, p).1.Accepted? then Serve(l, s, p).0
    else Continued(l, file, Serve(l, s, p).0, chunkBytes)
  }

  /** How many parts `bytes` are cut into; none at all still takes the final part. */
  function PartsFor(bytes: nat, chunkBytes: nat): nat
    requires chunkBytes > 0
  {
    if bytes <= chunkBytes then 1 else 1 + PartsFor(bytes - chunkBytes, chunkBytes)
  }

  /** The rest of the file fits the server's limits. */
  ghost predicate HasRoom(l: Limits, file: seq<byte>, s: Staging, chunkBytes: nat)
    requires Good(file, s) && chunkBytes > 0
  {
    |file| <= l.bytes && |s.chunks| + PartsFor(|file| - |Concat(s.chunks)|, chunkBytes) <= l.parts
  }

  /** A PUT that continues the parts is stored exactly when it is within the limits. */
  lemma ServesNext(l: Limits, s: Staging, p: Put)
    requires p.index == |s.chunks| && !s.sealed
    ensures
      var (s', verdict) := Serve(l, s, p);
      && (verdict.Accepted? <==> |s.chunks| < l.parts && |Concat(s.chunks)| + |p.data| <= l.bytes)
      && s' == if verdict.Accepted? then Staging(s.chunks + [p.data], p.final) else s
  {
  }

  lemma ServesSealed(l: Limits, s: Staging, p: Put)
    requires p.index == |s.chunks| && s.sealed
    ensures !Serve(l, s, p).1.Accepted? && Serve(l, s, p).0 == s
  {
  }

  lemma ContinuingFits(l: Limits, file: seq<byte>, s: Staging, chunkBytes: nat)
    requires Good(file, s)
    ensures
      var p := NextPut(file, |Concat(s.chunks)|, |s.chunks|, chunkBytes);
      var (s', verdict) := Serve(l, s, p);
      && Fits(file, s.chunks, p)
      && Good(file, s')
      && (!s.sealed ==>
            (verdict.Accepted? <==> |s.chunks| < l.parts && |Concat(s.chunks)| + |p.data| <= l.bytes))
      && (!s.sealed && verdict.Accepted? ==>
            s'.chunks == s.chunks + [p.data] && Concat(s'.chunks) == Concat(s.chunks) + p.data && s'.sealed == p.final)
      && (!verdict.Accepted? ==> s' == s)
  {
    var p := NextPut(file, |Concat(s.chunks)|, |s.chunks|, chunkBytes);
    NextPutContinues(file, s.chunks, chunkBytes);
    if s.sealed {
      ServesSealed(l, s, p);
    } else {
      ServesNext(l, s, p);
      ConcatAppend(s.chunks, p.data);
    }
  }

  lemma NextPutContinues(file: seq<byte>, chunks: seq<seq<byte>>, chunkBytes: nat)
    requires Concat(chunks) <= file
    ensures
      var p := NextPut(file, |Concat(chunks)|, |chunks|, chunkBytes);
      && Fits(file, chunks, p) && Concat(chunks) + p.data <= file
      && (p.final ==> Concat(chunks) + p.data == file)
  {
    assert chunks[..|chunks|] == chunks;
    var offset := |Concat(chunks)|;
    var p := NextPut(file, offset, |chunks|, chunkBytes);
    assert file[..offset] + file[offset..offset + |p.data|] == file[..offset + |p.data|];
  }

  /** One answered PUT, and where the run goes from it. */
  lemma OnePutOn(l: Limits, file: seq<byte>, s: Staging, chunkBytes: nat)
    requires Good(file, s) && !s.sealed && chunkBytes > 0
    ensures
      var p := NextPut(file, |Concat(s.chunks)|, |s.chunks|, chunkBytes);
      var (s1, verdict) := Serve(l, s, p);
      && Good(file, s1)
      && (if verdict.Accepted? then
            && s1.chunks == s.chunks + [p.data] && s1.sealed == p.final
            && |Concat(s1.chunks)| == |Concat(s.chunks)| + |p.data|
          else s1 == s)
      && Continued(l, file, s, chunkBytes) ==
           if verdict.Accepted? && !p.final then Continued(l, file, s1, chunkBytes) else s1
  {
    ContinuingFits(l, file, s, chunkBytes);
  }

  /** Whether there is room depends on the next part and on the room after it. */
  lemma RoomForOneMore(l: Limits, file: seq<byte>, s: Staging, chunkBytes: nat)
    requires Good(file, s) && !s.sealed && chunkBytes > 0
    ensures
      var p := NextPut(file, |Concat(s.chunks)|, |s.chunks|, chunkBytes);
      var (s1, verdict) := Serve(l, s, p);
      && (!verdict.Accepted? ==> !HasRoom(l, file, s, chunkBytes))
      && (verdict.Accepted? && p.final ==> HasRoom(l, file, s, chunkBytes))
      && (verdict.Accepted? && !p.final ==>
            Good(file, s1) && (HasRoom(l, file, s, chunkBytes) <==> HasRoom(l, file, s1, chunkBytes)))
  {
    OnePutOn(l, file, s, chunkBytes);
    ContinuingFits(l, file, s, chunkBytes);
  }

  /** Any interrupted upload, however its parts were cut, is completed by one answered run exactly when the rest of the
      file fits the server's limits: the parts before the interruption stay, and together with the new ones they are the
      file. Fully staged but unsealed uploads and the empty file are completed by one empty final part. */
  lemma {:induction false} AnsweredRunSeals(l: Limits, file: seq<byte>, s: Staging, chunkBytes: nat)
    requires Good(file, s) && !s.sealed && chunkBytes > 0
    ensures
      var s' := Continued(l, file, s, chunkBytes);
      && (s'.sealed <==> HasRoom(l, file, s, chunkBytes))
      && s.chunks <= s'.chunks && Good(file, s')
      && (s'.sealed && Concat(s.chunks) == file ==> s'.chunks == s.chunks + [[]])
    decreases |file| - |Concat(s.chunks)|
  {
    var p := NextPut(file, |Concat(s.chunks)|, |s.chunks|, chunkBytes);
    var (s1, verdict) := Serve(l, s, p);
    OnePutOn(l, file, s, chunkBytes);
    RoomForOneMore(l, file, s, chunkBytes);
    if verdict.Accepted? && !p.final {
      AnsweredRunSeals(l, file, s1, chunkBytes);
    }
  }

  /** A run that began at `before` has come to `now`: it will end, or has ended, where `before` leads. */
  ghost predicate OnTheWay(l: Limits, file: seq<byte>, before: Staging, now: Staging, index: int, more: bool,
                           chunkBytes: nat)
    requires Good(file, before) && Good(file, now) && chunkBytes > 0
  {
    if !more then now == Continued(l, file, before, chunkBytes)
    else
      && index == |now.chunks| && !now.sealed
      && Continued(l, file, now, chunkBytes) == Continued(l, file, before, chunkBytes)
  }

  lemma OnTheWayStep(l: Limits, file: seq<byte>, before: Staging, now: Staging, index: int, chunkBytes: nat)
    requires Good(file, before) && Good(file, now) && chunkBytes > 0
    requires OnTheWay(l, file, before, now, index, true, chunkBytes)
    ensures
      var p := NextPut(file, |Concat(now.chunks)|, |now.chunks|, chunkBytes);
      var (s', verdict) := Serve(l, now, p);
      && Good(file, s')
      && OnTheWay(l, file, before, s', index + 1, verdict.Accepted? && !p.final, chunkBytes)
  {
    ContinuingFits(l, file, now, chunkBytes);
  }

  /** The part has not been tried, or was refused. */
  predicate NotYet(l: Limits, before: Staging, now: Staging, p: Put) {
    now == before || (now == Serve(l, before, p).0 && !Serve(l, before, p).1.Accepted?)
  }

  /** The first parts are the first bytes of the file. */
  ghost predicate StagedPrefix(file: seq<byte>, chunks: seq<seq<byte>>, index: nat, offset: nat)
    requires index <= |chunks|
  {
    offset <= |file| && Concat(chunks[..index]) == file[..offset]
  }

  /** One more part keeps that exactly when it is what follows in the file; otherwise the parts differ from it. */
  lemma StagedNext(file: seq<byte>, chunks: seq<seq<byte>>, index: nat, offset: nat)
    requires index < |chunks| && StagedPrefix(file, chunks, index, offset)
    ensures
      var end := offset + |chunks[index]|;
      if end <= |file| && file[offset..end] == chunks[index] then StagedPrefix(file, chunks, index + 1, end)
      else !(Concat(chunks) <= file)
  {
    var end := offset + |chunks[index]|;
    assert chunks[..index + 1] == chunks[..index] + [chunks[index]];
    ConcatAppend(chunks[..index], chunks[index]);
    ConcatPrefix(chunks, index + 1);
    PrefixSlice(file[..offset], chunks[index], Concat(chunks), file);
    if end <= |file| && file[offset..end] == chunks[index] {
      assert file[..offset] + file[offset..end] == file[..end];
    }
  }

  lemma PrefixSlice(a: seq<byte>, b: seq<byte>, whole: seq<byte>, file: seq<byte>)
    requires a + b <= whole
    ensures whole <= file ==> |a| + |b| <= |file| && file[|a|..|a| + |b|] == b
  {
  }

  datatype Result = Uploaded | Interrupted | Differs

  class Uploader {
    /** The file, taken as unchanged while it is uploaded. */
    const file: seq<byte>
    /** The advertised chunk size; zero when the server names none. */
    const advertised: nat
    const retries: nat
    const limits: Limits
    /** Whether every request of this run is answered. */
    const answered: bool

    // the server and the network
    var staging: Staging
    var late: set<Put>

    constructor (file: seq<byte>, advertised: nat, retries: nat, limits: Limits, answered: bool)
      ensures this.file == file && this.advertised == advertised && this.retries == retries
      ensures this.limits == limits && this.answered == answered
      ensures Valid() && staging == Staging([], false) && late == {}
    {
      this.file, this.advertised, this.retries := file, advertised, retries;
      this.limits, this.answered := limits, answered;
      staging, late := Staging([], false), {};
    }

    ghost predicate Valid()
      reads this
    {
      && Good(file, staging)
      && (forall p :: p in late ==> Fits(file, staging.chunks, p))
    }

    /** Nothing disturbs this run: its requests are answered and none of a dead client is on its way. */
    ghost predicate Undisturbed()
      reads this
    {
      answered && late == {}
    }

    function ChunkBytes(): (size: nat)
      ensures 0 < size <= MAX_CHUNK
    {
      var wanted := if advertised == 0 then MAX_CHUNK else advertised;
      if wanted < MAX_CHUNK then wanted else MAX_CHUNK
    }

    /** The server works on a PUT: not at all, up to the stored part, or to its end. */
    method Work(p: Put) returns (verdict: Verdict, complete: bool)
      requires Valid() && Fits(file, staging.chunks, p)
      modifies this`staging
      ensures Valid() && old(staging).chunks <= staging.chunks
      ensures complete && verdict.Accepted? ==>
        && p.index < |staging.chunks| && staging.chunks[p.index] == p.data
        && (p.final ==> staging.sealed && Concat(staging.chunks) == file)
      ensures answered ==> complete && (staging, verdict) == Serve(limits, old(staging), p)
    {
      StoreKeepsGood(limits, file, staging, p);
      ServeKeepsGood(limits, file, staging, p);
      ghost var before := staging.chunks;
      var stops: bool, stored: bool, busy: bool := *, *, *;
      verdict, complete := Busy, busy;
      if !answered && (stops || busy) {
        if stored && !busy {
          staging := Store(limits, staging, p).0;
        }
      } else {
        verdict, complete := Serve(limits, staging, p).1, true;
        staging := Serve(limits, staging, p).0;
      }
      forall q | q in late ensures Fits(file, staging.chunks, q) {
        FitsStays(file, before, staging.chunks, q);
      }
    }

    /** PUTs of dead clients land or are lost. */
    method Meanwhile()
      requires Valid()
      modifies this
      ensures Valid() && old(staging).chunks <= staging.chunks
      ensures old(late) == {} ==> late == {} && staging == old(staging)
    {
      var steps: nat := *;
      while steps > 0
        invariant Valid() && old(staging).chunks <= staging.chunks
        invariant old(late) == {} ==> late == {} && staging == old(staging)
      {
        if late != {} {
          var p :| p in late;
          var _, _ := Work(p);
          if * {
            late := late - {p};
          }
        }
        steps := steps - 1;
      }
    }

    /** A PUT with the replays of a safe request: after an error or a lost reply, at most `retries` times. */
    method Replayed(p: Put) returns (answer: Option<Verdict>)
      requires Valid() && Fits(file, staging.chunks, p)
      modifies this
      ensures Valid() && old(staging).chunks <= staging.chunks
      ensures answer == Some(Accepted) ==>
        && p.index < |staging.chunks| && staging.chunks[p.index] == p.data
        && (p.final ==> staging.sealed && Concat(staging.chunks) == file)
      ensures old(Undisturbed()) ==>
        Undisturbed() && staging == Serve(limits, old(staging), p).0 && answer == Some(Serve(limits, old(staging), p).1)
    {
      var attempt: nat := 0;
      while true
        invariant Valid() && old(staging).chunks <= staging.chunks && attempt <= retries
        invariant old(Undisturbed()) ==> Undisturbed() && staging == old(staging)
        decreases retries - attempt
      {
        Meanwhile();
        FitsStays(file, old(staging).chunks, staging.chunks, p);
        var verdict, complete := Work(p);
        var lost: bool := *;
        if answered || (complete && !lost) {
          return Some(verdict);
        }
        // the reply is lost and the request may still be on its way
        FitsStays(file, old(staging).chunks, staging.chunks, p);
        late := late + {p};
        if attempt >= retries {
          return None;
        }
        attempt := attempt + 1;
      }
    }

    /** One chunk, with patience for a server that answers with a conflict: again at most `retries` times. */
    method Send(p: Put) returns (accepted: bool)
      requires Valid() && Fits(file, staging.chunks, p)
      modifies this
      ensures Valid() && old(staging).chunks <= staging.chunks
      ensures accepted ==>
        && p.index < |staging.chunks| && staging.chunks[p.index] == p.data
        && (p.final ==> staging.sealed && Concat(staging.chunks) == file)
      ensures old(Undisturbed()) ==>
        && Undisturbed() && staging == Serve(limits, old(staging), p).0
        && accepted == Serve(limits, old(staging), p).1.Accepted?
    {
      RefusedAgain(limits, staging, p);
      var attempt: nat := 0;
      while true
        invariant Valid() && old(staging).chunks <= staging.chunks && attempt <= retries
        invariant old(Undisturbed()) ==> Undisturbed() && NotYet(limits, old(staging), staging, p)
        decreases retries - attempt
      {
        FitsStays(file, old(staging).chunks, staging.chunks, p);
        var answer := Replayed(p);
        if answer.None? || !IsConflict(answer.value) || attempt >= retries {
          return answer == Some(Accepted);
        }
        attempt := attempt + 1;
      }
    }

    /** Compares the reported parts with the file, part by part; the result is where to continue. */
    method VerifyStaged(reported: Staging) returns (r: Result, offset: nat)
      ensures r.Differs? || r.Uploaded? || r.Interrupted?
      ensures !r.Differs? <==> Good(file, reported)
      ensures !r.Differs? ==> offset == |Concat(reported.chunks)| && (r.Uploaded? <==> reported.sealed)
    {
      offset := 0;
      var index: nat := 0;
      while index < |reported.chunks|
        invariant index <= |reported.chunks| && StagedPrefix(file, reported.chunks, index, offset)
      {
        var chunk := reported.chunks[index];
        StagedNext(file, reported.chunks, index, offset);
        if offset + |chunk| > |file| || file[offset..offset + |chunk|] != chunk {
          return Differs, offset;
        }
        offset, index := offset + |chunk|, index + 1;
      }
      assert reported.chunks[..index] == reported.chunks;
      if reported.sealed {
        return if offset == |file| then Uploaded else Differs, offset;
      }
      return Interrupted, offset;
    }

    /** The state of the loop that sends the rest: `index` parts of together `offset` bytes are there. */
    ghost predicate Sending(offset: int, index: int, more: bool)
      reads this
    {
      && Valid() && 0 <= index <= |staging.chunks| && offset == |Concat(staging.chunks[..index])| <= |file|
      && (!more ==> staging.sealed && Concat(staging.chunks) == file)
    }

    /** A run that began at `before`, if undisturbed, is on the way to where that leads. */
    ghost predicate Calm(before: Staging, index: int, more: bool)
      reads this
      requires Good(file, before) && Valid()
    {
      Undisturbed() && OnTheWay(limits, file, before, staging, index, more, ChunkBytes())
    }

    /** The next part. */
    method SendPart(offset: nat, index: nat, ghost before: Staging) returns (accepted: bool, sent: nat)
      requires Sending(offset, index, true) && Good(file, before)
      modifies this
      ensures Valid() && old(staging).chunks <= staging.chunks
      ensures accepted ==> Sending(offset + sent, index + 1, offset + sent < |file|)
      ensures accepted && offset < |file| ==> sent > 0
      ensures old(Calm(before, index, true)) ==> Calm(before, index + 1, accepted && offset + sent < |file|)
      ensures old(Calm(before, index, true)) && !accepted ==> !staging.sealed
    {
      var p := NextPut(file, offset, index, ChunkBytes());
      ghost var parts := staging.chunks;
      NextPutFits(file, parts, index, ChunkBytes());
      if Calm(before, index, true) {
        OnTheWayStep(limits, file, before, staging, index, ChunkBytes());
        ContinuingFits(limits, file, staging, ChunkBytes());
        assert parts[..index] == parts;
      }
      sent := |p.data|;
      accepted := Send(p);
      if accepted {
        PartAccepted(parts, staging.chunks, index, p.data);
      }
    }

    /** Sends the file from `offset` on, starting with part `index`. */
    method SendRest(start: nat, first: nat) returns (r: Result)
      requires Valid()
      requires first <= |staging.chunks| && start == |Concat(staging.chunks[..first])| <= |file|
      modifies this
      ensures Valid() && old(staging).chunks <= staging.chunks
      ensures r.Uploaded? || r.Interrupted?
      ensures r.Uploaded? ==> staging.sealed && Concat(staging.chunks) == file
      ensures old(Undisturbed() && first == |staging.chunks| && !staging.sealed) ==>
        staging == Continued(limits, file, old(staging), ChunkBytes()) && (r.Uploaded? <==> staging.sealed)
    {
      ghost var before := staging;
      ghost var calm := Undisturbed() && first == |staging.chunks| && !staging.sealed;
      var offset: nat, index: nat, more := start, first, true;
      while more
        invariant Sending(offset, index, more) && before.chunks <= staging.chunks
        invariant calm ==> Calm(before, index, more)
        decreases |file| - offset, more
      {
        var accepted, sent := SendPart(offset, index, before);
        if !accepted {
          return Interrupted;
        }
        offset, index := offset + sent, index + 1;
        more := offset < |file|;
      }
      return Uploaded;
    }

    /**
     One run: it verifies the staged prefix against the file and continues from there. Completed or
     interrupted, the staged parts remain a prefix of the file and are never taken back; completed, the
     server has sealed exactly the file's bytes. Undisturbed, it completes exactly when the rest has room.
     */
    method UploadArchiveChunks() returns (r: Result)
      requires Valid()
      modifies this
      ensures Valid() && old(staging).chunks <= staging.chunks
      ensures r.Uploaded? ==> staging.sealed && Concat(staging.chunks) == file
      ensures !r.Differs?
      ensures old(Undisturbed()) ==>
        && (r.Uploaded? <==> old(staging).sealed || HasRoom(limits, file, old(staging), ChunkBytes()))
        && staging == if old(staging).sealed then old(staging) else Continued(limits, file, old(staging), ChunkBytes())
    {
      var reported := staging;
      var offset;
      r, offset := VerifyStaged(reported);
      if r.Interrupted? {
        assert staging.chunks[..|reported.chunks|] == reported.chunks;
        AnsweredRunSeals(limits, file, staging, ChunkBytes());
        r := SendRest(offset, |reported.chunks|);
      }
    }
  }
}
