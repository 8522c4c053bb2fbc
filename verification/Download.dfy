/** Resumable downloads. The server streams a file from an offset as chunks, a digest of the whole file and a
    status; the client appends the chunks to a partial file next to the destination and replaces the destination
    only after the digest has matched. The stream may break off anywhere, and any local file operation may fail. */
module Download {
  import opened Basics

  type Data = seq<Byte>

  /** Frames as the client reads them; a digest whose payload cannot be decoded counts as `Other`. */
  datatype Frame = Chunk(payload: Data) | Digest(sum: string) | Status(ok: bool) | Other

  /** How the write of one chunk ends: complete, or an error after some bytes. */
  datatype WriteResult = Written | Broken(bytes: nat)

  datatype Outcome = Verified | Mismatch | Failed

  type Hash = Data -> string

  /** SHA-256 is taken to be free of collisions. */
  ghost predicate CollisionFree(h: Hash) {
    forall a, b :: h(a) == h(b) ==> a == b
  }

  // ---------------------------------------------------------------------------------------------
  // The server

  /** `frames` is what a client can receive of `file` from position `pos` on: the stream may stop after any
      frame, and the server may give up with an error status. */
  ghost predicate Serves(h: Hash, file: Data, pos: nat, frames: seq<Frame>)
    decreases |frames|
  {
    frames == [] ||
    match frames[0]
    case Chunk(p) => pos + |p| <= |file| && p == file[pos..pos + |p|] && Serves(h, file, pos + |p|, frames[1..])
    case Digest(sum) => pos == |file| && sum == h(file) && (frames[1..] == [] || frames[1..] == [Status(true)])
    case Status(ok) => !ok && frames[1..] == []
    case Other => false
  }

  /** What can come back for a request at `offset`; past the end there is only the error. */
  ghost predicate Answers(h: Hash, file: Data, offset: nat, frames: seq<Frame>) {
    if offset <= |file| then Serves(h, file, offset, frames) else frames == [] || frames == [Status(false)]
  }

  /** The whole stream, up to the good status. */
  predicate Whole(frames: seq<Frame>) {
    frames != [] && frames[|frames| - 1] == Status(true)
  }

  /** Chunks that carry the file from `start` to `pos`. */
  ghost predicate Carries(file: Data, start: nat, pos: nat, frames: seq<Frame>)
    decreases |frames|
  {
    if frames == [] then start == pos
    else
      var last := frames[|frames| - 1];
      && last.Chunk? && |last.payload| <= pos <= |file| && last.payload == file[pos - |last.payload|..pos]
      && Carries(file, start, pos - |last.payload|, frames[..|frames| - 1])
  }

  lemma CarriesOn(file: Data, start: nat, pos: nat, frames: seq<Frame>, p: Data)
    requires Carries(file, start, pos, frames) && pos + |p| <= |file| && p == file[pos..pos + |p|]
    ensures Carries(file, start, pos + |p|, frames + [Chunk(p)])
  {
    assert (frames + [Chunk(p)])[..|frames|] == frames;
  }

  lemma {:induction false} ServesThen(h: Hash, file: Data, start: nat, frames: seq<Frame>, pos: nat, more: seq<Frame>)
    requires Carries(file, start, pos, frames) && Serves(h, file, pos, more)
    ensures Serves(h, file, start, frames + more)
    decreases |frames|
  {
    if frames == [] {
      assert frames + more == more;
    } else {
      var front, p := frames[..|frames| - 1], frames[|frames| - 1].payload;
      ServesChunk(h, file, pos - |p|, p, more);
      ServesThen(h, file, start, front, pos - |p|, [Chunk(p)] + more);
      assert frames + more == front + ([Chunk(p)] + more);
    }
  }

  lemma ServesChunk(h: Hash, file: Data, pos: nat, p: Data, rest: seq<Frame>)
    requires pos + |p| <= |file| && p == file[pos..pos + |p|] && Serves(h, file, pos + |p|, rest)
    ensures Serves(h, file, pos, [Chunk(p)] + rest)
  {
    assert ([Chunk(p)] + rest)[1..] == rest;
  }

  /** All chunk payloads, in order. */
  function Payload(frames: seq<Frame>): Data {
    if frames == [] then []
    else (if frames[0].Chunk? then frames[0].payload else []) + Payload(frames[1..])
  }

  /** sendDownload and the status after it; `sizes(k)` bounds what the k-th read returns. */
  method SendDownload(h: Hash, file: Data, offset: nat, sizes: nat -> nat) returns (frames: seq<Frame>)
    ensures Answers(h, file, offset, frames)
    ensures Whole(frames) <==> offset <= |file|
  {
    if offset > |file| {
      return [Status(false)];
    }
    var pos, k := offset, 0;
    frames := [];
    while pos < |file|
      invariant offset <= pos <= |file|
      invariant Carries(file, offset, pos, frames)
    {
      var n := if sizes(k) == 0 then 1 else sizes(k);
      if n > |file| - pos {
        n := |file| - pos;
      }
      CarriesOn(file, offset, pos, frames, file[pos..pos + n]);
      frames := frames + [Chunk(file[pos..pos + n])];
      pos, k := pos + n, k + 1;
    }
    var tail := [Digest(h(file)), Status(true)];
    assert tail[1..] == [Status(true)];
    ServesThen(h, file, offset, frames, pos, tail);
    frames := frames + tail;
  }

  // ---------------------------------------------------------------------------------------------
  // The client's stream

  datatype Received = Received(data: Data, outcome: Outcome)

  /** ftDownloadStream: `data` is the output so far and `hashed` what went through the hasher and is counted. */
  function Receive(h: Hash, frames: seq<Frame>, writes: seq<WriteResult>, max: int, data: Data, hashed: Data): Received
    decreases |frames|
  {
    if frames == [] then Received(data, Failed)
    else
      match frames[0]
      case Chunk(p) =>
        if max > 0 && |hashed| + |p| > max then Received(data, Failed)
        else
          var w := if writes == [] then Written else writes[0];
          if w.Broken? then Received(data + (if w.bytes < |p| then p[..w.bytes] else p), Failed)
          else Receive(h, frames[1..], if writes == [] then [] else writes[1..], max, data + p, hashed + p)
      case Digest(sum) =>
        Received(data, if sum != h(hashed) then Mismatch
                       else if 1 < |frames| && frames[1] == Status(true) then Verified
                       else Failed)
      case _ => Received(data, Failed)
  }

  /** The loop, over an output it appends to. */
  method DownloadStream(h: Hash, frames: seq<Frame>, writes: seq<WriteResult>, max: int, before: Data, seeded: Data)
    returns (out: Data, outcome: Outcome)
    ensures Received(out, outcome) == Receive(h, frames, writes, max, before, seeded)
  {
    out := before;
    var hashed, rest, faults := seeded, frames, writes;
    while true
      invariant Receive(h, frames, writes, max, before, seeded) == Receive(h, rest, faults, max, out, hashed)
      decreases |rest|
    {
      if |rest| == 0 {
        return out, Failed;
      }
      match rest[0] {
        case Chunk(p) =>
          if max > 0 && |hashed| + |p| > max {
            return out, Failed;
          }
          if |faults| > 0 && faults[0].Broken? {
            var n := faults[0].bytes;
            return out + (if n < |p| then p[..n] else p), Failed;
          }
          out, hashed := out + p, hashed + p;
          rest, faults := rest[1..], if faults == [] then [] else faults[1..];
        case Digest(sum) =>
          if sum != h(hashed) {
            return out, Mismatch;
          }
          if |rest| > 1 && rest[1] == Status(true) {
            return out, Verified;
          }
          return out, Failed;
        case _ =>
          return out, Failed;
      }
    }
  }

  /** Whatever is sent, a capped download never holds more than its cap. */
  lemma {:induction false} StreamIsCapped(h: Hash, frames: seq<Frame>, writes: seq<WriteResult>, max: int, data: Data)
    requires max > 0 && |data| <= max
    ensures |Receive(h, frames, writes, max, data, data).data| <= max
    decreases |frames|
  {
    if frames != [] && frames[0].Chunk? && |data| + |frames[0].payload| <= max {
      if writes == [] || writes[0].Written? {
        StreamIsCapped(h, frames[1..], if writes == [] then [] else writes[1..], max, data + frames[0].payload);
      }
    }
  }

  /** A cap that the stream does not reach changes nothing. */
  lemma {:induction false} CapOnlyLimits(h: Hash, frames: seq<Frame>, writes: seq<WriteResult>, max: int, data: Data)
    requires max > 0 && |data| + |Payload(frames)| <= max
    ensures Receive(h, frames, writes, max, data, data) == Receive(h, frames, writes, 0, data, data)
    decreases |frames|
  {
    if frames == [] {
    } else if frames[0].Chunk? {
      var rest := if writes == [] then [] else writes[1..];
      CapOnlyLimits(h, frames[1..], rest, max, data + frames[0].payload);
    }
  }

  lemma {:induction false} ServedPayload(h: Hash, file: Data, pos: nat, frames: seq<Frame>)
    requires pos <= |file| && Serves(h, file, pos, frames)
    ensures pos + |Payload(frames)| <= |file|
    decreases |frames|
  {
    if frames == [] {
    } else if frames[0].Chunk? {
      ServedPayload(h, file, pos + |frames[0].payload|, frames[1..]);
    } else {
      NoPayload(frames);
    }
  }

  /** Digest and status carry no file data. */
  lemma NoPayload(frames: seq<Frame>)
    requires 0 < |frames| <= 2 && forall i :: 0 <= i < |frames| ==> !frames[i].Chunk?
    ensures Payload(frames) == []
  {
    if |frames| == 2 {
      assert frames[1..][1..] == [];
    }
  }

  /** A file longer than the cap is never verified: a chunk that would pass the cap comes before the digest. */
  lemma {:induction false} OverCapFails(
      h: Hash, file: Data, pos: nat, frames: seq<Frame>, writes: seq<WriteResult>, max: int)
    requires 0 < max < |file| && pos <= max && Serves(h, file, pos, frames)
    ensures Receive(h, frames, writes, max, file[..pos], file[..pos]).outcome == Failed
    decreases |frames|
  {
    if frames == [] {
    } else if frames[0].Chunk? {
      var p := frames[0].payload;
      if pos + |p| <= max {
        assert file[..pos] + p == file[..pos + |p|];
        OverCapFails(h, file, pos + |p|, frames[1..], if writes == [] then [] else writes[1..], max);
      }
    }
  }

  /** A capped download from the start, of a stream that arrives whole and is written, ends with the whole file exactly
      when the file is within the cap, and fails otherwise. */
  lemma CappedDownloadIff(h: Hash, file: Data, frames: seq<Frame>, max: int)
    requires max > 0 && Serves(h, file, 0, frames) && Whole(frames)
    ensures Receive(h, frames, [], max, [], []).outcome == if |file| <= max then Verified else Failed
    ensures |file| <= max ==> Receive(h, frames, [], max, [], []).data == file
  {
    assert file[..0] == [];
    if |file| <= max {
      ServedPayload(h, file, 0, frames);
      CapOnlyLimits(h, frames, [], max, []);
      HonestStream(h, file, 0, frames, []);
    } else {
      OverCapFails(h, file, 0, frames, [], max);
    }
  }

  /** A verified download is all chunks up to a digest frame that matches it. */
  lemma {:induction false} VerifiedMatchesDigest(
      h: Hash, frames: seq<Frame>, writes: seq<WriteResult>, max: int, data: Data)
    returns (k: nat)
    requires Receive(h, frames, writes, max, data, data).outcome == Verified
    ensures k < |frames| && frames[k] == Digest(h(Receive(h, frames, writes, max, data, data).data))
    ensures Receive(h, frames, writes, max, data, data).data == data + Payload(frames[..k])
    decreases |frames|
  {
    if frames[0].Chunk? {
      var p := frames[0].payload;
      var rest := if writes == [] then [] else writes[1..];
      var j := VerifiedMatchesDigest(h, frames[1..], rest, max, data + p);
      k := j + 1;
      assert frames[..k][1..] == frames[1..][..j];
      assert data + (p + Payload(frames[1..][..j])) == (data + p) + Payload(frames[1..][..j]);
    } else {
      k := 0;
    }
  }

  /** From a prefix of the file, a stream of that file only ever extends the prefix; it ends verified only with
      the whole file, and never in a mismatch. Undisturbed, it does end verified. */
  lemma {:induction false} HonestStream(h: Hash, file: Data, pos: nat, frames: seq<Frame>, writes: seq<WriteResult>)
    requires pos <= |file| && Serves(h, file, pos, frames)
    ensures var r := Receive(h, frames, writes, 0, file[..pos], file[..pos]);
            && pos <= |r.data| <= |file| && r.data == file[..|r.data|]
            && r.outcome != Mismatch
            && (r.outcome == Verified ==> r.data == file)
            && (Whole(frames) && writes == [] ==> r.outcome == Verified)
    decreases |frames|
  {
    if frames == [] {
    } else {
      if frames[0].Chunk? {
        var p := frames[0].payload;
        assert file[..pos] + p == file[..pos + |p|];
        var rest := if writes == [] then [] else writes[1..];
        HonestStream(h, file, pos + |p|, frames[1..], rest);
        if writes != [] && writes[0].Broken? {
          var n := if writes[0].bytes < |p| then writes[0].bytes else |p|;
          assert file[..pos] + p[..n] == file[..pos + n];
        }
      } else if frames[0].Digest? {
        assert file[..pos] == file;
      }
    }
  }

  /** The remnant came from something else: an undisturbed stream then ends in a mismatch, or verified if the
      remnant happens to be a prefix of the file after all. */
  lemma {:induction false} ForeignStream(h: Hash, file: Data, pos: nat, frames: seq<Frame>, held: Data)
    requires CollisionFree(h) && pos <= |file| && |held| == pos && Serves(h, file, pos, frames) && Whole(frames)
    ensures var r := Receive(h, frames, [], 0, held, held);
            && r.outcome == (if held == file[..pos] then Verified else Mismatch)
            && r.data == held + file[pos..]
    decreases |frames|
  {
    if frames[0].Chunk? {
      var p := frames[0].payload;
      assert Whole(frames[1..]);
      assert file[..pos + |p|] == file[..pos] + p;
      assert held + p + file[pos + |p|..] == held + file[pos..];
      ForeignStream(h, file, pos + |p|, frames[1..], held + p);
      assert (held + p)[..pos] == held && file[..pos + |p|][..pos] == file[..pos];
    } else {
      assert file[..pos] == file && held + file[pos..] == held;
    }
  }

  // ---------------------------------------------------------------------------------------------
  // Attempts

  datatype Files = Files(part: Option<Data>, dest: Option<Data>)

  /** What the local operations of one attempt do. */
  datatype Local = Local(opens: bool, writes: seq<WriteResult>, closes: bool, drops: bool, removes: bool, renames: bool)

  predicate Smooth(l: Local) {
    l.opens && l.writes == [] && l.closes && l.drops && l.removes && l.renames
  }

  function Held(f: Files): Data {
    if f.part.Some? then f.part.value else []
  }

  /** finalizeDownloadedPart: remove the old destination, then rename. */
  function Finalize(f: Files, l: Local): Files {
    if !l.removes then f
    else if !l.renames then f.(dest := None)
    else Files(None, f.part)
  }

  /** ftDownloadProgress: the stream was requested at offset |Held(f)|. */
  function Attempt(h: Hash, f: Files, frames: seq<Frame>, l: Local): Files {
    if !l.opens then f
    else
      var r := Receive(h, frames, l.writes, 0, Held(f), Held(f));
      var after := f.(part := Some(r.data));
      if r.outcome == Mismatch then (if l.drops then after.(part := None) else after)
      else if r.outcome == Verified && l.closes then Finalize(after, l)
      else after
  }

  /** The files on disk, and one attempt at replacing the destination. */
  class Disk {
    var part: Option<Data>
    var dest: Option<Data>

    function View(): Files
      reads this
    {
      Files(part, dest)
    }

    constructor (part: Option<Data>, dest: Option<Data>)
      ensures View() == Files(part, dest)
    {
      this.part, this.dest := part, dest;
    }

    method FinalizeDownloadedPart(l: Local) returns (ok: bool)
      modifies this
      ensures View() == Finalize(old(View()), l)
      ensures ok <==> l.removes && l.renames
    {
      if !l.removes {
        return false;
      }
      dest := None;
      if !l.renames {
        return false;
      }
      dest, part := part, None;
      ok := true;
    }

    /** Returns whether the caller is told the download succeeded. */
    method DownloadProgress(h: Hash, frames: seq<Frame>, l: Local) returns (ok: bool)
      modifies this
      ensures View() == Attempt(h, old(View()), frames, l)
      ensures ok ==> dest == Some(Receive(h, frames, l.writes, 0, Held(old(View())), Held(old(View()))).data)
      ensures ok <==> l.opens && l.closes && l.removes && l.renames &&
                      Receive(h, frames, l.writes, 0, Held(old(View())), Held(old(View()))).outcome == Verified
    {
      if !l.opens {
        return false;
      }
      var have := if part.Some? then part.value else [];
      var data, outcome := DownloadStream(h, frames, l.writes, 0, have, have);
      part := Some(data);
      if outcome == Mismatch {
        if l.drops {
          part := None;
        }
        return false;
      }
      if outcome == Failed || !l.closes {
        return false;
      }
      ok := FinalizeDownloadedPart(l);
    }
  }

  datatype Try = Try(frames: seq<Frame>, local: Local)

  /** Any number of attempts, each answered for the file the server has at that moment. */
  ghost predicate Answered(h: Hash, start: Files, tries: seq<Try>, file: Data)
    decreases |tries|
  {
    tries == [] ||
    (Answered(h, start, tries[..|tries| - 1], file) &&
     Answers(h, file, |Held(AfterTries(h, start, tries[..|tries| - 1]))|, tries[|tries| - 1].frames))
  }

  function AfterTries(h: Hash, start: Files, tries: seq<Try>): Files
    decreases |tries|
  {
    if tries == [] then start
    else Attempt(h, AfterTries(h, start, tries[..|tries| - 1]), tries[|tries| - 1].frames, tries[|tries| - 1].local)
  }

  predicate PartIsPrefix(f: Files, file: Data) {
    f.part.None? || f.part.value <= file
  }

  lemma HonestAttempt(h: Hash, file: Data, f: Files, t: Try)
    requires PartIsPrefix(f, file) && Answers(h, file, |Held(f)|, t.frames)
    ensures var g := Attempt(h, f, t.frames, t.local);
            && PartIsPrefix(g, file)
            && (g == Files(None, Some(file)) || |Held(f)| <= |Held(g)|)
            && (g.dest == f.dest || g.dest == Some(file) || (g.dest == None && g.part == Some(file)))
            && (Whole(t.frames) && Smooth(t.local) ==> g == Files(None, Some(file)))
  {
    var held := Held(f);
    assert held == file[..|held|];
    HonestStream(h, file, |held|, t.frames, t.local.writes);
  }

  /** The destination is the old one or the whole file; if it is gone, the partial file is the whole file. */
  predicate DestinationSafe(f: Files, before: Option<Data>, file: Data) {
    f.dest == before || f.dest == Some(file) || (f.dest == None && f.part == Some(file))
  }

  lemma AttemptKeepsDestination(h: Hash, file: Data, f: Files, before: Option<Data>, t: Try)
    requires PartIsPrefix(f, file) && Answers(h, file, |Held(f)|, t.frames) && DestinationSafe(f, before, file)
    ensures DestinationSafe(Attempt(h, f, t.frames, t.local), before, file)
  {
    HonestAttempt(h, file, f, t);
    if f.dest == None && f.part == Some(file) {
      assert file[..|file|] == file;
      HonestStream(h, file, |file|, t.frames, t.local.writes);
    }
  }

  /** Any number of attempts on an unchanged file, however they were interrupted: the partial file is a prefix of
      it, and the destination is what it was, or the whole file, or gone while the partial file is the whole
      file. */
  lemma {:induction false} UnchangedFileStaysSafe(h: Hash, file: Data, start: Files, tries: seq<Try>)
    requires PartIsPrefix(start, file) && Answered(h, start, tries, file)
    ensures var f := AfterTries(h, start, tries);
            PartIsPrefix(f, file) && DestinationSafe(f, start.dest, file)
    decreases |tries|
  {
    if tries == [] {
    } else {
      var front, last := tries[..|tries| - 1], tries[|tries| - 1];
      UnchangedFileStaysSafe(h, file, start, front);
      HonestAttempt(h, file, AfterTries(h, start, front), last);
      AttemptKeepsDestination(h, file, AfterTries(h, start, front), start.dest, last);
    }
  }

  /** From whatever the attempts so far have left, one undisturbed attempt brings the file in. */
  lemma UndisturbedAttemptCompletes(h: Hash, file: Data, start: Files, tries: seq<Try>, next: Try)
    requires PartIsPrefix(start, file) && Answered(h, start, tries + [next], file)
    requires Whole(next.frames) && Smooth(next.local)
    ensures AfterTries(h, start, tries + [next]) == Files(None, Some(file))
  {
    assert (tries + [next])[..|tries|] == tries;
    UnchangedFileStaysSafe(h, file, start, tries);
    HonestAttempt(h, file, AfterTries(h, start, tries), next);
  }

  /** The partial file never shrinks from one attempt to the next, except by becoming the destination. */
  lemma PartNeverShrinks(h: Hash, file: Data, start: Files, tries: seq<Try>, next: Try)
    requires PartIsPrefix(start, file) && Answered(h, start, tries + [next], file)
    ensures var f, g := AfterTries(h, start, tries), AfterTries(h, start, tries + [next]);
            g == Files(None, Some(file)) || Held(f) <= Held(g)
  {
    assert (tries + [next])[..|tries|] == tries;
    UnchangedFileStaysSafe(h, file, start, tries);
    var f := AfterTries(h, start, tries);
    HonestAttempt(h, file, f, next);
    assert Held(f) == file[..|Held(f)|];
  }

  /** No chunk of a whole stream, which ends in digest and status, meets a broken write. */
  predicate AllWritten(frames: seq<Frame>, writes: seq<WriteResult>) {
    forall i :: 0 <= i < |writes| && i + 2 < |frames| ==> writes[i].Written?
  }

  /** A stream of the file at hand is verified exactly when all of it arrives and is written. */
  lemma {:induction false} VerifiedIff(h: Hash, file: Data, pos: nat, frames: seq<Frame>, writes: seq<WriteResult>)
    requires pos <= |file| && Serves(h, file, pos, frames)
    ensures Receive(h, frames, writes, 0, file[..pos], file[..pos]).outcome == Verified <==>
            Whole(frames) && AllWritten(frames, writes)
    decreases |frames|
  {
    if frames == [] {
    } else if frames[0].Chunk? {
      ChunkThenVerified(h, file, pos, frames, writes);
    } else {
      assert frames[0].Digest? ==> file[..pos] == file;
    }
  }

  lemma ChunkThenVerified(h: Hash, file: Data, pos: nat, frames: seq<Frame>, writes: seq<WriteResult>)
    requires pos <= |file| && Serves(h, file, pos, frames) && frames != [] && frames[0].Chunk?
    ensures Receive(h, frames, writes, 0, file[..pos], file[..pos]).outcome == Verified <==>
            Whole(frames) && AllWritten(frames, writes)
    decreases |frames|, 0
  {
    var p, more := frames[0].payload, frames[1..];
    var rest := if writes == [] then [] else writes[1..];
    assert file[..pos] + p == file[..pos + |p|];
    VerifiedIff(h, file, pos + |p|, more, rest);
    if Whole(frames) {
      WholeHasTwo(h, file, pos + |p|, more);
      assert Whole(more);
      AllWrittenFirst(frames, writes);
    }
  }

  lemma WholeHasTwo(h: Hash, file: Data, pos: nat, frames: seq<Frame>)
    requires Serves(h, file, pos, frames) && (frames == [] || Whole(frames))
    ensures frames == [] || |frames| >= 2
    decreases |frames|
  {
    if frames == [] {
    } else if frames[0].Chunk? {
      assert frames[1..] == [] || Whole(frames[1..]);
    }
  }

  lemma AllWrittenFirst(frames: seq<Frame>, writes: seq<WriteResult>)
    requires |frames| >= 3
    ensures AllWritten(frames, writes) <==>
            (writes == [] || (writes[0].Written? && AllWritten(frames[1..], writes[1..])))
  {
    if writes != [] && writes[0].Written? && AllWritten(frames[1..], writes[1..]) {
      forall i | 0 <= i < |writes| && i + 2 < |frames| ensures writes[i].Written? {
        assert i > 0 ==> writes[1..][i - 1] == writes[i];
      }
    }
  }

  /** Finalizing removes the old destination before it renames. So an attempt on an unchanged file loses the
      destination exactly when the whole stream arrives and is written, everything else works, and the rename
      does not. The partial file is then the whole file. */
  lemma DestinationLostIff(h: Hash, file: Data, f: Files, t: Try)
    requires f.dest.Some? && PartIsPrefix(f, file) && Answers(h, file, |Held(f)|, t.frames)
    ensures Attempt(h, f, t.frames, t.local).dest == None <==>
            && Whole(t.frames) && AllWritten(t.frames, t.local.writes)
            && t.local.opens && t.local.closes && t.local.removes && !t.local.renames
    ensures Attempt(h, f, t.frames, t.local).dest == None ==> Attempt(h, f, t.frames, t.local).part == Some(file)
  {
    assert Held(f) == file[..|Held(f)|];
    VerifiedIff(h, file, |Held(f)|, t.frames, t.local.writes);
    HonestStream(h, file, |Held(f)|, t.frames, t.local.writes);
  }

  /** For instance: a one-byte file, nothing held, and a rename that fails. */
  lemma FailedRenameLosesDestination(h: Hash)
    ensures var frames := [Chunk([7]), Digest(h([7])), Status(true)];
            var local := Local(true, [], true, true, true, false);
            Attempt(h, Files(None, Some([1, 2])), frames, local) == Files(Some([7]), None)
  {
    var frames := [Chunk([7]), Digest(h([7])), Status(true)];
    assert frames[1..] == [Digest(h([7])), Status(true)];
    assert [] + [7] == [7];
    assert Receive(h, frames[1..], [], 0, [7], [7]) == Received([7], Verified);
  }

  // A changed file

  /** One undisturbed attempt after the file changed, still at least as long as the remnant: it completes exactly
      when the remnant is a prefix of the new file, and drops the remnant otherwise. */
  lemma ChangedFileAttempt(h: Hash, file: Data, f: Files, t: Try)
    requires CollisionFree(h) && |Held(f)| <= |file| && Answers(h, file, |Held(f)|, t.frames)
    requires Whole(t.frames) && Smooth(t.local)
    ensures Attempt(h, f, t.frames, t.local) == if Held(f) <= file then Files(None, Some(file)) else Files(None, f.dest)
  {
    var held := Held(f);
    ForeignStream(h, file, |held|, t.frames, held);
    assert held <= file <==> held == file[..|held|];
    assert file[..|held|] + file[|held|..] == file;
  }

  /** Past the end of the file the server only ever answers with an error. */
  lemma ShrunkenFileAttempt(h: Hash, file: Data, f: Files, t: Try)
    requires |Held(f)| > |file| && Answers(h, file, |Held(f)|, t.frames)
    ensures Attempt(h, f, t.frames, t.local) == f
  {
    assert f.part == Some(Held(f));
  }

  lemma {:induction false} ShrunkenFileSticks(h: Hash, file: Data, start: Files, tries: seq<Try>)
    requires |Held(start)| > |file| && Answered(h, start, tries, file)
    ensures AfterTries(h, start, tries) == start
    decreases |tries|
  {
    if tries == [] {
    } else {
      ShrunkenFileSticks(h, file, start, tries[..|tries| - 1]);
      ShrunkenFileAttempt(h, file, start, tries[|tries| - 1]);
    }
  }

  ghost predicate Undisturbed(tries: seq<Try>) {
    forall i :: 0 <= i < |tries| ==>
      Smooth(tries[i].local) && (tries[i].frames == [Status(false)] || Whole(tries[i].frames))
  }

  /** After a file changed under a remnant, two undisturbed attempts bring the new file in exactly when the
      remnant is no longer than it. A longer remnant is never dropped, so no number of attempts ever gets past
      it. */
  lemma RecoversIffRemnantFits(h: Hash, file: Data, start: Files, one: Try, two: Try)
    requires CollisionFree(h) && start.dest != Some(file) && Undisturbed([one, two])
    requires Answered(h, start, [one, two], file)
    requires |Held(start)| <= |file| ==> Whole(one.frames) && Whole(two.frames)
    ensures AfterTries(h, start, [one, two]).dest == Some(file) <==> |Held(start)| <= |file|
  {
    assert [one, two][..1] == [one] && [one][..0] == [];
    if |Held(start)| <= |file| {
      assert AfterTries(h, start, []) == start;
      var mid := AfterTries(h, start, [one]);
      assert Answers(h, file, |Held(start)|, one.frames) && Answers(h, file, |Held(mid)|, two.frames);
      assert Smooth([one, two][0].local) && Smooth([one, two][1].local);
      ChangedFileAttempt(h, file, start, one);
      ChangedFileAttempt(h, file, mid, two);
      assert Held(mid) == [] && [] <= file;
    } else {
      ShrunkenFileSticks(h, file, start, [one, two]);
    }
  }
}
