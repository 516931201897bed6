/**
 The archive decoder's output stream (scripts/archive/reader.c): one frame per entry, with a
 tag, a 4-byte and an 8-byte big-endian length, the name and the data, written under limits
 that are computed in 64-bit arithmetic. The archive library is represented by what it hands
 to the decoder; any write may fail part-way.
 */
module FrameWriter {
  import opened Prelude

  const TWO64: nat := 0x1_0000_0000_0000_0000

  const TAG_DIR: byte := 68
  const TAG_FILE: byte := 70

  /** Unsigned 64-bit wrap-around. */
  function Wrap(n: nat): (r: nat)
    ensures r < TWO64 && (n < TWO64 ==> r == n)
  {
    n % TWO64
  }

  datatype Frame = Frame(dir: bool, name: seq<byte>, data: seq<byte>)

  // ----- numbers -----

  function BigEndian(n: nat, bytes: nat): (s: seq<byte>)
    ensures |s| == bytes
  {
    if bytes == 0 then [] else BigEndian(n / 256, bytes - 1) + [(n % 256) as byte]
  }

  function FromBigEndian(s: seq<byte>): nat {
    if s == [] then 0 else FromBigEndian(s[..|s| - 1]) * 256 + s[|s| - 1] as nat
  }

  function Power256(bytes: nat): (p: nat)
    ensures p > 0
  {
    if bytes == 0 then 1 else 256 * Power256(bytes - 1)
  }

  lemma {:induction false} BigEndianTruncates(n: nat, bytes: nat)
    ensures FromBigEndian(BigEndian(n, bytes)) < Power256(bytes)
    ensures n < Power256(bytes) ==> FromBigEndian(BigEndian(n, bytes)) == n
  {
    if bytes > 0 {
      var s := BigEndian(n, bytes);
      assert s[..bytes - 1] == BigEndian(n / 256, bytes - 1);
      BigEndianTruncates(n / 256, bytes - 1);
    }
  }

  /** A number survives being written exactly when it fits the field. */
  lemma NumberIsLosslessIffItFits(n: nat, bytes: nat)
    ensures FromBigEndian(BigEndian(n, bytes)) == n <==> n < Power256(bytes)
  {
    BigEndianTruncates(n, bytes);
  }

  lemma FieldSizes()
    ensures Power256(4) == 0x1_0000_0000 && Power256(8) == TWO64
  {
    assert Power256(3) == 256 * 65536;
    assert Power256(4) == 256 * Power256(3);
    assert Power256(6) == 65536 * Power256(4);
    assert Power256(8) == 65536 * Power256(6);
  }

  // ----- frames -----

  function Header(dir: bool, name: seq<byte>, size: nat): (s: seq<byte>)
    ensures |s| == 13
  {
    [if dir then TAG_DIR else TAG_FILE] + BigEndian(|name|, 4) + BigEndian(size, 8)
  }

  function Encode(f: Frame): seq<byte> {
    Header(f.dir, f.name, |f.data|) + f.name + f.data
  }

  function EncodeAll(frames: seq<Frame>): seq<byte> {
    if frames == [] then [] else EncodeAll(frames[..|frames| - 1]) + Encode(frames[|frames| - 1])
  }

  /** The reader's side: the frame at the head of `s` and what follows it. */
  function DecodeOne(s: seq<byte>): (r: Option<(Frame, seq<byte>)>)
    ensures r.Some? ==> |r.value.1| < |s|
  {
    if |s| < 13 || (s[0] != TAG_DIR && s[0] != TAG_FILE) then None
    else
      var nameLength := FromBigEndian(s[1..5]);
      var size := FromBigEndian(s[5..13]);
      if |s| < 13 + nameLength + size then None
      else
        Some((Frame(s[0] == TAG_DIR, s[13..13 + nameLength], s[13 + nameLength..13 + nameLength + size]),
              s[13 + nameLength + size..]))
  }

  function Decode(s: seq<byte>): Option<seq<Frame>>
    decreases |s|
  {
    if s == [] then Some([])
    else match DecodeOne(s)
      case None => None
      case Some((f, rest)) =>
        match Decode(rest)
        case None => None
        case Some(frames) => Some([f] + frames)
  }

  /** The lengths fit their fields. */
  predicate Framable(f: Frame) {
    |f.name| < 0x1_0000_0000 && |f.data| < TWO64
  }

  lemma DecodeOneEncoded(f: Frame, rest: seq<byte>)
    requires Framable(f)
    ensures DecodeOne(Encode(f) + rest) == Some((f, rest))
  {
    var s := Encode(f) + rest;
    FieldSizes();
    BigEndianTruncates(|f.name|, 4);
    BigEndianTruncates(|f.data|, 8);
    assert s[1..5] == BigEndian(|f.name|, 4);
    assert s[5..13] == BigEndian(|f.data|, 8);
    assert s[13..13 + |f.name|] == f.name;
    assert s[13 + |f.name|..13 + |f.name| + |f.data|] == f.data;
    assert s[13 + |f.name| + |f.data|..] == rest;
  }

  lemma Regroup(a: seq<byte>, b: seq<byte>, c: seq<byte>)
    ensures (a + b) + c == a + (b + c)
  {
  }

  lemma {:induction false} EncodeAllFirst(frames: seq<Frame>)
    requires frames != []
    ensures EncodeAll(frames) == Encode(frames[0]) + EncodeAll(frames[1..])
    decreases |frames|
  {
    var last := |frames| - 1;
    if last == 0 {
      assert EncodeAll(frames[..0]) == [] && EncodeAll(frames[1..]) == [];
    } else {
      EncodeAllFirst(frames[..last]);
      assert frames[..last][0] == frames[0];
      assert frames[..last][1..] == frames[1..][..last - 1];
      assert frames[1..][last - 1] == frames[last];
      Regroup(Encode(frames[0]), EncodeAll(frames[1..][..last - 1]), Encode(frames[last]));
    }
  }

  /** The stream reads back as the frames that were written. */
  lemma {:induction false} DecodeEncodeAll(frames: seq<Frame>)
    requires forall i :: 0 <= i < |frames| ==> Framable(frames[i])
    ensures Decode(EncodeAll(frames)) == Some(frames)
    decreases |frames|
  {
    if frames != [] {
      EncodeAllFirst(frames);
      DecodeOneEncoded(frames[0], EncodeAll(frames[1..]));
      DecodeEncodeAll(frames[1..]);
      assert [frames[0]] + frames[1..] == frames;
    }
  }

  // ----- what the archive library reports -----

  datatype Kind = Directory | Regular | Special

  /** `blocks` are the results of the successive data reads; `broken` ends them with an error. */
  datatype Entry = Entry(
    formatMatches: bool,
    encrypted: bool,
    linked: bool,
    kind: Kind,
    name: Option<seq<byte>>,
    size: int,
    blocks: seq<seq<byte>>,
    broken: bool)

  /** `complete`: the last header read reported the end of the archive. */
  datatype Archive = Archive(entries: seq<Entry>, complete: bool, encrypted: bool, formatMatches: bool)

  datatype Limits = Limits(maxFiles: nat, maxFile: nat, maxTotal: nat)

  /** The frame that stands for an entry. */
  function FrameOf(e: Entry): Frame {
    Frame(e.kind.Directory?, if e.name.Some? then e.name.value else [], Concat(e.blocks))
  }

  function DataBytes(frames: seq<Frame>): nat {
    if frames == [] then 0 else DataBytes(frames[..|frames| - 1]) + |frames[|frames| - 1].data|
  }

  /** The limits leave room for the 64-bit sums. */
  predicate Roomy(l: Limits) {
    l.maxTotal + l.maxFile < TWO64 && l.maxFiles * 2 < TWO64
  }

  ghost predicate WithinLimits(frames: seq<Frame>, l: Limits) {
    && |frames| <= 2 * l.maxFiles
    && (forall i :: 0 <= i < |frames| ==> |frames[i].data| <= l.maxFile && 0 < |frames[i].name| <= 1024)
    && DataBytes(frames) <= l.maxTotal
  }

  lemma StaysWithinLimits(stream: seq<Frame>, f: Frame, l: Limits)
    requires WithinLimits(stream, l) && |stream| < 2 * l.maxFiles
    requires |f.data| <= l.maxFile && 0 < |f.name| <= 1024 && DataBytes(stream) + |f.data| <= l.maxTotal
    ensures WithinLimits(stream + [f], l)
  {
    LastFrame(stream, f);
  }

  /** With room, the entry counter does not wrap. */
  lemma CountsExactly(count: nat, l: Limits)
    requires Roomy(l) && count <= 2 * l.maxFiles
    ensures Wrap(count + 1) == count + 1 && Wrap(l.maxFiles * 2) == 2 * l.maxFiles
  {
    assert 2 * l.maxFiles < TWO64 - 1;
  }

  /** The stream holds the first entries, in order. */
  ghost predicate Copied(entries: seq<Entry>, stream: seq<Frame>) {
    |stream| <= |entries| && forall i :: 0 <= i < |stream| ==> stream[i] == FrameOf(entries[i])
  }

  predicate WellTyped(a: Archive) {
    && (forall i :: 0 <= i < |a.entries| ==> -0x8000_0000_0000_0000 <= a.entries[i].size < 0x8000_0000_0000_0000)
    && (forall i, k :: 0 <= i < |a.entries| && 0 <= k < |a.entries[i].blocks| ==>
          0 < |a.entries[i].blocks[k]| <= 65536)
  }

  /** The checks on an entry that come before anything of it is written. */
  predicate Accepted(e: Entry, l: Limits, total: nat) {
    && !e.encrypted && !e.linked && !e.kind.Special?
    && e.name.Some? && 0 < |e.name.value| <= 1024
    && 0 <= e.size <= l.maxFile
    && (e.kind.Regular? ==> Wrap(total + e.size) <= l.maxTotal)
  }

  function Size(e: Entry): nat {
    if e.kind.Directory? || e.size < 0 then 0 else e.size
  }

  /** The entry passes every check that does not depend on the other entries. */
  predicate Sound(e: Entry, l: Limits) {
    && e.formatMatches && !e.encrypted && !e.linked && !e.kind.Special?
    && e.name.Some? && 0 < |e.name.value| <= 1024
    && 0 <= e.size <= l.maxFile
    && !e.broken && |Concat(e.blocks)| == Size(e)
  }

  function Frames(entries: seq<Entry>): (frames: seq<Frame>)
    ensures |frames| == |entries|
    ensures forall i :: 0 <= i < |entries| ==> frames[i] == FrameOf(entries[i])
  {
    seq(|entries|, i requires 0 <= i < |entries| => FrameOf(entries[i]))
  }

  /** An archive that should be decoded. */
  predicate Readable(a: Archive, l: Limits) {
    && a.complete && !a.encrypted && a.formatMatches
    && |a.entries| <= 2 * l.maxFiles
    && (forall i :: 0 <= i < |a.entries| ==> Sound(a.entries[i], l))
    && DataBytes(Frames(a.entries)) <= l.maxTotal
  }

  lemma {:induction false} DataBytesGrows(frames: seq<Frame>, k: nat)
    requires k <= |frames|
    ensures DataBytes(frames[..k]) <= DataBytes(frames)
    decreases |frames|
  {
    if k < |frames| {
      assert frames[..|frames| - 1][..k] == frames[..k];
      DataBytesGrows(frames[..|frames| - 1], k);
    } else {
      assert frames[..k] == frames;
    }
  }

  function Zeros(n: nat): (s: seq<byte>)
    ensures |s| == n
  {
    seq(n, i => 0)
  }

  lemma LastFrame(stream: seq<Frame>, f: Frame)
    ensures EncodeAll(stream + [f]) == EncodeAll(stream) + Encode(f)
    ensures DataBytes(stream + [f]) == DataBytes(stream) + |f.data|
  {
    assert (stream + [f])[..|stream|] == stream;
  }

  lemma CopiedIsPrefix(entries: seq<Entry>, stream: seq<Frame>)
    requires Copied(entries, stream)
    ensures stream == Frames(entries)[..|stream|]
  {
  }

  lemma {:induction false} DataBytesNext(frames: seq<Frame>, k: nat)
    requires k < |frames|
    ensures DataBytes(frames[..k]) + |frames[k].data| <= DataBytes(frames)
  {
    assert frames[..k + 1][..k] == frames[..k];
    DataBytesGrows(frames, k + 1);
  }

  lemma NextFits(a: Archive, l: Limits, stream: seq<Frame>)
    requires Readable(a, l) && |stream| < |a.entries| && Copied(a.entries, stream)
    ensures DataBytes(stream) + Size(a.entries[|stream|]) <= l.maxTotal
  {
    CopiedIsPrefix(a.entries, stream);
    DataBytesNext(Frames(a.entries), |stream|);
    assert Sound(a.entries[|stream|], l);
  }

  /** No check refuses the next entry of a readable archive. */
  lemma NextIsAccepted(a: Archive, l: Limits, stream: seq<Frame>)
    requires Roomy(l) && Readable(a, l) && |stream| < |a.entries| && Copied(a.entries, stream)
    ensures
      var e := a.entries[|stream|];
      && e.formatMatches && Wrap(|stream| + 1) <= Wrap(l.maxFiles * 2)
      && Accepted(e, l, DataBytes(stream)) && DataBytes(stream) + Size(e) <= l.maxTotal
  {
    NextFits(a, l, stream);
    assert Sound(a.entries[|stream|], l);
    CountsExactly(|stream|, l);
  }

  /** What holds between two entries: the frames so far are the entries so far, and the counters are exact. */
  ghost predicate Progress(a: Archive, l: Limits, stream: seq<Frame>, count: nat, total: nat) {
    && Copied(a.entries, stream)
    && (forall j :: 0 <= j < |stream| ==> Sound(a.entries[j], l) && Framable(stream[j]))
    && count < TWO64 && total < TWO64
    && (Roomy(l) ==> WithinLimits(stream, l) && total == DataBytes(stream) && count == |stream|)
  }

  lemma ProgressStep(a: Archive, l: Limits, stream: seq<Frame>, count: nat, total: nat, total': nat)
    requires Progress(a, l, stream, count, total) && |stream| < |a.entries| && l.maxFile < TWO64
    requires Sound(a.entries[|stream|], l) && total' < TWO64
    requires var f := FrameOf(a.entries[|stream|]);
      && |f.data| <= l.maxFile
      && (Roomy(l) ==> |stream| < 2 * l.maxFiles && total + |f.data| <= l.maxTotal && total' == total + |f.data|)
    ensures Progress(a, l, stream + [FrameOf(a.entries[|stream|])], Wrap(count + 1), total')
  {
    var f := FrameOf(a.entries[|stream|]);
    LastFrame(stream, f);
    if Roomy(l) {
      CountsExactly(count, l);
      StaysWithinLimits(stream, f, l);
    }
  }

  /** The frame that a decoder had begun when it stopped after `written`: the rest of the declared size is
      not on the stream. */
  function Begun(e: Entry, size: nat, written: seq<byte>): (f: Frame)
    requires e.name.Some? && |written| <= size
    ensures |f.data| == size && f.name == e.name.value
  {
    Frame(e.kind.Directory?, e.name.value, written + Zeros(size - |written|))
  }

  lemma BegunExtends(e: Entry, size: nat, written: seq<byte>, head: seq<byte>)
    requires e.name.Some? && |written| <= size
    requires head <= Header(e.kind.Directory?, e.name.value, size) + e.name.value + written
    ensures head <= Encode(Begun(e, size, written))
  {
    var f := Begun(e, size, written);
    assert Encode(f) == (Header(f.dir, f.name, size) + f.name + written) + Zeros(size - |written|);
  }

  /** The bytes of the readable archive's stream. */
  function StreamLength(a: Archive): nat {
    |EncodeAll(Frames(a.entries))|
  }

  lemma {:induction false} EncodeAllPrefix(frames: seq<Frame>, n: nat)
    requires n <= |frames|
    ensures EncodeAll(frames[..n]) <= EncodeAll(frames)
    decreases |frames|
  {
    if n == |frames| {
      assert frames[..n] == frames;
    } else {
      var last := |frames| - 1;
      assert frames[..last][..n] == frames[..n];
      EncodeAllPrefix(frames[..last], n);
    }
  }

  lemma EncodedLength(f: Frame)
    ensures |Encode(f)| == 13 + |f.name| + |f.data|
  {
  }

  /** A stream that ends with an entry just begun is no longer than the whole. */
  lemma BegunIsNoLonger(a: Archive, l: Limits, stream: seq<Frame>, f: Frame)
    requires |stream| < |a.entries| && Copied(a.entries, stream) && Sound(a.entries[|stream|], l)
    requires f.name == a.entries[|stream|].name.value && |f.data| == Size(a.entries[|stream|])
    ensures |EncodeAll(stream + [f])| <= StreamLength(a)
  {
    var n, frames := |stream|, Frames(a.entries);
    CopiedIsPrefix(a.entries, stream);
    LastFrame(stream, f);
    LastFrame(stream, frames[n]);
    EncodedLength(f);
    EncodedLength(frames[n]);
    assert frames[..n + 1] == stream + [frames[n]];
    EncodeAllPrefix(frames, n + 1);
  }

  /** The decoder process. `stdout` takes `room` bytes; the write that goes beyond leaves what fits, and all later
      ones fail. `flushes`: what was written can be flushed at the end. */
  class Decoder {
    const room: nat
    const flushes: bool
    var out: seq<byte>
    var failed: bool

    constructor (room: nat, flushes: bool)
      ensures this.room == room && this.flushes == flushes && out == [] && !failed
    {
      this.room, this.flushes := room, flushes;
      out, failed := [], false;
    }

    /** Nothing is lost, or all the room is used. */
    predicate Written()
      reads this
    {
      |out| <= room && (failed ==> |out| == room)
    }

    method Put(bytes: seq<byte>) returns (ok: bool)
      requires Written()
      modifies this`out, this`failed
      ensures Written() && ok == !failed && (ok ==> !old(failed) && out == old(out) + bytes)
      ensures old(out) <= out <= old(out) + bytes
      ensures old(failed) ==> failed && out == old(out)
      ensures failed && !old(failed) ==> room < |old(out) + bytes|
    {
      if failed {
        return false;
      }
      var kept := Min(room - |out|, |bytes|);
      out, failed := out + bytes[..kept], kept < |bytes|;
      ok := !failed;
    }

    /** Writes the low bytes of an unsigned number, most significant first. */
    method Number(n: nat, bytes: nat) returns (ok: bool)
      requires bytes <= 8 && Written()
      modifies this`out, this`failed
      ensures Written() && ok == !failed && (ok ==> !old(failed) && out == old(out) + BigEndian(n, bytes))
      ensures old(out) <= out <= old(out) + BigEndian(n, bytes)
      ensures old(failed) ==> failed && out == old(out)
      ensures failed && !old(failed) ==> room < |old(out) + BigEndian(n, bytes)|
    {
      var b := new byte[8];
      var i, rest := bytes, n;
      while i > 0
        invariant 0 <= i <= bytes
        invariant BigEndian(n, bytes) == BigEndian(rest, i) + b[i..bytes]
        invariant out == old(out) && failed == old(failed)
      {
        i := i - 1;
        b[i] := (rest % 256) as byte;
        rest := rest / 256;
      }
      ok := Put(b[..bytes]);
    }

    /** Tag, lengths and name. The result of the tag's `fputc` is not looked at. */
    method PutHeader(e: Entry, size: nat) returns (ok: bool)
      requires e.name.Some? && !failed && Written()
      modifies this`out, this`failed
      ensures Written() && ok == !failed
      ensures
        var head := Header(e.kind.Directory?, e.name.value, size) + e.name.value;
        if ok then out == old(out) + head else old(out) <= out <= old(out) + head && room < |old(out) + head|
    {
      var name := e.name.value;
      ghost var tag, base := [if e.kind.Directory? then TAG_DIR else TAG_FILE], out;
      ghost var head := Header(e.kind.Directory?, name, size) + name;
      assert base + head == base + tag + BigEndian(|name|, 4) + BigEndian(size, 8) + name;
      var _ := Put([if e.kind.Directory? then TAG_DIR else TAG_FILE]);
      ok := Number(|name|, 4);
      if !ok {
        assert base <= out <= base + tag + BigEndian(|name|, 4);
        return;
      }
      ok := Number(size, 8);
      if !ok {
        assert base <= out <= base + tag + BigEndian(|name|, 4) + BigEndian(size, 8);
        return;
      }
      ok := Put(name);
    }

    /** Copies the data of one entry; `total` counts over all entries. */
    method PutData(e: Entry, size: nat, l: Limits, total: nat) returns (ok: bool, total': nat, ghost written: seq<byte>)
      requires !failed && total < TWO64 && Written()
      modifies this`out, this`failed
      ensures Written() && |written| <= size && old(out) <= out <= old(out) + written
      ensures failed ==> room < |old(out) + written|
      ensures ok ==> !failed && written == Concat(e.blocks) && |written| == size && out == old(out) + written
      ensures total' < TWO64 && (ok && total + size < TWO64 ==> total' == total + size)
      ensures ok ==> !e.broken
      ensures !ok && !failed && total + size <= l.maxTotal < TWO64 ==> e.broken || |Concat(e.blocks)| != size
    {
      var k, count: int := 0, 0;
      total', written := total, [];
      while k < |e.blocks|
        invariant 0 <= k <= |e.blocks| && !failed && Written()
        invariant written == Concat(e.blocks[..k]) && count == |written| <= size && out == old(out) + written
        invariant total' < TWO64 && (total + size < TWO64 ==> total' == total + count)
      {
        var block := e.blocks[k];
        count, total' := count + |block|, Wrap(total' + |block|);
        assert e.blocks[..k + 1][..k] == e.blocks[..k];
        ConcatPrefix(e.blocks, k + 1);
        if count > size || total' > l.maxTotal {
          return false, total', written;
        }
        written := written + block;
        ok := Put(block);
        if !ok {
          return;
        }
        k := k + 1;
      }
      assert e.blocks[..k] == e.blocks;
      ok := !e.broken && count == size;
    }

    /** One accepted entry: `f` is the frame it begins, and completes when `ok`. */
    method PutEntry(e: Entry, l: Limits, total: nat) returns (ok: bool, total': nat, ghost f: Frame)
      requires !failed && total < TWO64 && Written()
      requires Accepted(e, l, total)
      modifies this`out, this`failed
      ensures Written() && f.name == e.name.value && |f.data| == Size(e)
      ensures failed ==> room < |old(out) + Encode(f)|
      ensures Roomy(l) && total <= l.maxTotal ==> total + |f.data| <= l.maxTotal
      ensures old(out) <= out <= old(out) + Encode(f)
      ensures ok ==> !failed && f == FrameOf(e) && out == old(out) + Encode(f)
      ensures total' < TWO64 && (ok && total + |f.data| < TWO64 ==> total' == total + |f.data|)
      ensures e.formatMatches && ok ==> Sound(e, l)
      ensures !ok && !failed && total + Size(e) <= l.maxTotal < TWO64 ==> !Sound(e, l)
    {
      var size: nat := if e.kind.Directory? then 0 else e.size;
      ghost var base := out;
      ghost var head := Header(e.kind.Directory?, e.name.value, size) + e.name.value;
      f, total' := Begun(e, size, []), total;
      ok := PutHeader(e, size);
      if !ok {
        BegunExtends(e, size, [], out[|base|..]);
        return;
      }
      ghost var written;
      ok, total', written := PutData(e, size, l, total);
      f := Begun(e, size, written);
      assert base + head + written == base + (head + written);
      BegunExtends(e, size, written, out[|base|..]);
      assert ok ==> written + Zeros(0) == written;
    }

    /** One turn of the entry loop. */
    method PutNext(a: Archive, l: Limits, i: nat, count: nat, total: nat, ghost stream: seq<Frame>)
      returns (ok: bool, count': nat, total': nat, ghost stream': seq<Frame>)
      requires i == |stream| < |a.entries| && Progress(a, l, stream, count, total)
      requires l.maxFile < TWO64 && !failed && Written() && out == EncodeAll(stream)
      modifies this`out, this`failed
      ensures Written() && out <= EncodeAll(stream') && (Roomy(l) ==> WithinLimits(stream', l))
      ensures ok ==> |stream'| == i + 1 && Progress(a, l, stream', count', total')
      ensures ok ==> !failed && out == EncodeAll(stream')
      ensures !ok && Roomy(l) && Readable(a, l) ==> room < StreamLength(a)
    {
      var e := a.entries[i];
      if Roomy(l) {
        CountsExactly(count, l);
        if Readable(a, l) {
          NextIsAccepted(a, l, stream);
        }
      }
      count', total', stream' := Wrap(count + 1), total, stream;
      if !e.formatMatches || count' > Wrap(l.maxFiles * 2) || !Accepted(e, l, total) {
        return false, count', total', stream';
      }
      ghost var f;
      ok, total', f := PutEntry(e, l, total);
      LastFrame(stream, f);
      stream' := stream + [f];
      if failed && Sound(e, l) {
        BegunIsNoLonger(a, l, stream, f);
      }
      if ok {
        ProgressStep(a, l, stream, count, total, total');
      } else if Roomy(l) {
        StaysWithinLimits(stream, f, l);
      }
    }

    /**
     The whole run. On exit code 0 the output reads back as exactly the entries of the archive, in order.
     On every exit, the output is a prefix of a well-formed stream; and when the 64-bit sums have room, that stream
     is within the limits, and the run succeeds exactly on readable archives whose whole stream `stdout` takes.
     */
    method Extract(a: Archive, l: Limits) returns (code: int, ghost stream: seq<Frame>)
      requires WellTyped(a) && out == [] && !failed
      requires l.maxFiles < TWO64 && l.maxFile < TWO64 && l.maxTotal < TWO64
      modifies this`out, this`failed
      ensures code == 0 || code == 1
      ensures out <= EncodeAll(stream)
      ensures Roomy(l) ==> WithinLimits(stream, l)
      ensures code == 0 ==>
        && a.complete && !a.encrypted && a.formatMatches
        && |stream| == |a.entries| && Copied(a.entries, stream)
        && Decode(out) == Some(stream) && |out| <= room && flushes
      ensures Roomy(l) ==> (code == 0 <==> Readable(a, l) && StreamLength(a) <= room && flushes)
    {
      stream := [];
      var count: nat, total: nat, i: nat := 0, 0, 0;
      while i < |a.entries|
        invariant i == |stream| <= |a.entries| && !failed && Written() && out == EncodeAll(stream)
        invariant Progress(a, l, stream, count, total)
      {
        var ok;
        ok, count, total, stream := PutNext(a, l, i, count, total, stream);
        if !ok {
          return 1, stream;
        }
        i := i + 1;
      }
      if !a.complete || a.encrypted || !a.formatMatches {
        return 1, stream;
      }
      DecodeEncodeAll(stream);
      assert stream == Frames(a.entries);
      return if flushes then 0 else 1, stream;
    }
  }
}
