/** export_to: the chunked download of an export artifact into a part file, and what has to hold before
    the part file becomes the output. */
module ExportDownload {
  import opened Options
  import opened Bytes
  import opened Fips180
  import opened ExportSha256

  /** length is a 64-bit number. */
  datatype Artifact = Artifact(length: nat, sha256: seq<Byte>)

  datatype Answer = Chunk(artifact: Artifact, offset: nat, data: seq<Byte>, last: bool) | DownloadFailed

  /** What the environment does beside answering downloads: whether the export becomes available, the
      number of part-file writes that succeed, and the outcome of each later call. */
  datatype Environment = Environment(available: bool, opens: bool, writes: nat, removes: bool,
                                     syncs: bool, completes: bool, renames: bool, syncsParent: bool)

  datatype Reason = IdentityChanged | OffsetMismatch | IntegrityFailed

  datatype Result = Exported(artifact: Artifact) | Refused(reason: Reason) | Failed | StillDownloading

  class Files {
    var part: Option<seq<Byte>>
    var output: Option<seq<Byte>>
  }

  /** The bytes of the first n answers, one after another. */
  ghost function Received(answers: seq<Answer>, n: nat): seq<Byte>
    requires n <= |answers|
  {
    if n == 0 then []
    else Received(answers, n - 1) + (if answers[n - 1].Chunk? then answers[n - 1].data else [])
  }

  /** Answer i is a chunk of the artifact at the end of what came before. */
  ghost predicate InPlace(artifact: Artifact, answers: seq<Answer>, i: nat)
  {
    i < |answers| && answers[i].Chunk? && answers[i].artifact == artifact && answers[i].offset == |Received(answers, i)| % TWO_64
  }

  /** The first n answers are chunks of the artifact without a gap, and none is the last one. */
  ghost predicate Unbroken(artifact: Artifact, answers: seq<Answer>, n: nat)
  {
    n <= |answers| && forall i :: 0 <= i < n ==> InPlace(artifact, answers, i) && !answers[i].last
  }

  /** The first n answers are the whole artifact, length and digest included. */
  ghost predicate Complete(artifact: Artifact, answers: seq<Answer>, n: nat)
  {
    && 0 < n <= |answers| && Unbroken(artifact, answers, n - 1)
    && InPlace(artifact, answers, n - 1) && answers[n - 1].last
    && |Received(answers, n)| % TWO_64 == artifact.length
    && Sha256(Received(answers, n)) == artifact.sha256
  }

  /** Every call but the downloads succeeds, n writes among them. */
  predicate Smooth(env: Environment, n: nat)
  {
    env.available && env.opens && n <= env.writes && env.syncs && env.completes && env.renames && env.syncsParent
  }

  // The answers can only be complete at the first chunk marked last.
  lemma OneEnd(artifact: Artifact, answers: seq<Answer>, i: nat, n: nat)
    requires Unbroken(artifact, answers, i) && Complete(artifact, answers, n)
    ensures i < n && InPlace(artifact, answers, i)
    ensures answers[i].last ==> n == i + 1
  {
    hide Sha256, Received;
  }

  /** Answer n, after an unbroken start, is a chunk of another artifact or at another offset. */
  ghost predicate Misplaced(artifact: Artifact, answers: seq<Answer>, n: nat, reason: Reason)
  {
    && n < |answers| && Unbroken(artifact, answers, n) && answers[n].Chunk?
    && match reason
       case IdentityChanged => answers[n].artifact != artifact
       case OffsetMismatch => answers[n].artifact == artifact && answers[n].offset != |Received(answers, n)| % TWO_64
       case IntegrityFailed => false
  }

  /** The first n answers end the download with the wrong length or digest. */
  ghost predicate Corrupt(artifact: Artifact, answers: seq<Answer>, n: nat)
  {
    && n <= |answers| && Ended(artifact, answers, n, Received(answers, n))
    && (|Received(answers, n)| % TWO_64 != artifact.length || Sha256(Received(answers, n)) != artifact.sha256)
  }

  /** The answers are not complete within the given number of writes. */
  ghost predicate Incomplete(artifact: Artifact, answers: seq<Answer>, writes: nat)
  {
    forall n: nat :: Complete(artifact, answers, n) ==> n > writes
  }

  lemma NeverComplete(artifact: Artifact, answers: seq<Answer>, i: nat, writes: nat)
    requires Unbroken(artifact, answers, i) && (InPlace(artifact, answers, i) ==> i == writes)
    ensures Incomplete(artifact, answers, writes)
  {
    hide Complete, Unbroken, InPlace;
    forall n: nat | Complete(artifact, answers, n)
      ensures n > writes
    {
      OneEnd(artifact, answers, i, n);
    }
  }

  /** The first n answers, none of them the last, bring this content. */
  ghost predicate Gathered(artifact: Artifact, answers: seq<Answer>, n: nat, content: seq<Byte>)
  {
    Unbroken(artifact, answers, n) && content == Received(answers, n)
  }

  /** The first n answers are all, and bring this content. */
  ghost predicate Ended(artifact: Artifact, answers: seq<Answer>, n: nat, content: seq<Byte>)
  {
    && 0 < n <= |answers| && Unbroken(artifact, answers, n - 1)
    && InPlace(artifact, answers, n - 1) && answers[n - 1].last
    && content == Received(answers, n)
  }

  // ---- Where a download stops ----------------------------------------------------------------

  /** Answer i, after an unbroken start, is one the download does not get past: there is none, it failed, it
      is out of place, it cannot be written, or it is the last. */
  ghost predicate StopsAt(artifact: Artifact, answers: seq<Answer>, writes: nat, i: nat)
  {
    && i <= writes && i <= |answers| && Unbroken(artifact, answers, i)
    && (InPlace(artifact, answers, i) ==> i == writes || answers[i].last)
  }

  lemma OneStop(artifact: Artifact, answers: seq<Answer>, writes: nat, i: nat, j: nat)
    requires StopsAt(artifact, answers, writes, i) && StopsAt(artifact, answers, writes, j)
    ensures i == j
  {
    hide InPlace;
  }

  /** The download of answer n failed, or its chunk could not be written. */
  ghost predicate Breaks(artifact: Artifact, answers: seq<Answer>, writes: nat, n: nat)
  {
    && n <= writes && n < |answers| && Unbroken(artifact, answers, n)
    && (answers[n].DownloadFailed? || (n == writes && InPlace(artifact, answers, n)))
  }

  predicate CallsFail(env: Environment) { !env.syncs || !env.completes || !env.renames || !env.syncsParent }

  /** What an export comes to whose download stops at answer i. */
  ghost function Outcome(artifact: Artifact, answers: seq<Answer>, env: Environment, i: nat): Result
    requires i <= |answers|
  {
    if i == |answers| then StillDownloading
    else if answers[i].DownloadFailed? then Failed
    else if answers[i].artifact != artifact then Refused(IdentityChanged)
    else if answers[i].offset != |Received(answers, i)| % TWO_64 then Refused(OffsetMismatch)
    else if i == env.writes then Failed
    else if Corrupt(artifact, answers, i + 1) then Refused(IntegrityFailed)
    else if CallsFail(env) then Failed
    else Exported(artifact)
  }

  lemma CorruptStops(artifact: Artifact, answers: seq<Answer>, writes: nat, n: nat)
    requires n <= writes && (Corrupt(artifact, answers, n) || Complete(artifact, answers, n))
    ensures n > 0 && StopsAt(artifact, answers, writes, n - 1) && InPlace(artifact, answers, n - 1)
    ensures Corrupt(artifact, answers, n) <==> !Complete(artifact, answers, n)
  {
    hide Sha256, Received;
  }

  lemma MisplacedStops(artifact: Artifact, answers: seq<Answer>, writes: nat, n: nat, reason: Reason)
    requires n <= writes && Misplaced(artifact, answers, n, reason)
    ensures StopsAt(artifact, answers, writes, n)
  {
    hide Received;
  }

  /** The outcome at the one place where the download stops, both ways. */
  lemma OutcomeMeans(artifact: Artifact, answers: seq<Answer>, env: Environment, i: nat)
    requires StopsAt(artifact, answers, env.writes, i)
    ensures var result := Outcome(artifact, answers, env, i);
      && (result == Refused(IntegrityFailed) <==> exists n: nat :: n <= env.writes && Corrupt(artifact, answers, n))
      && (forall reason :: reason != IntegrityFailed ==>
            (result == Refused(reason) <==> exists n: nat :: n <= env.writes && Misplaced(artifact, answers, n, reason)))
      && (result == StillDownloading <==> |answers| <= env.writes && Unbroken(artifact, answers, |answers|))
      && (result == Failed <==>
            || (exists n: nat :: Breaks(artifact, answers, env.writes, n))
            || (CallsFail(env) && exists n: nat :: n <= env.writes && Complete(artifact, answers, n)))
  {
    var result := Outcome(artifact, answers, env, i);
    IntegrityMeans(artifact, answers, env, i);
    forall reason | reason != IntegrityFailed
      ensures result == Refused(reason) <==> exists n: nat :: n <= env.writes && Misplaced(artifact, answers, n, reason)
    {
      PlaceMeans(artifact, answers, env, i, reason);
    }
    if |answers| <= env.writes && Unbroken(artifact, answers, |answers|) {
      OneStop(artifact, answers, env.writes, i, |answers|);
    }
    FailureMeans(artifact, answers, env, i);
  }

  lemma IntegrityMeans(artifact: Artifact, answers: seq<Answer>, env: Environment, i: nat)
    requires StopsAt(artifact, answers, env.writes, i)
    ensures Outcome(artifact, answers, env, i) == Refused(IntegrityFailed)
       <==> exists n: nat :: n <= env.writes && Corrupt(artifact, answers, n)
  {
    hide Corrupt, Complete, Received, Unbroken;
    forall n: nat | n <= env.writes && Corrupt(artifact, answers, n)
      ensures n == i + 1 && InPlace(artifact, answers, i)
    {
      CorruptStops(artifact, answers, env.writes, n);
      OneStop(artifact, answers, env.writes, i, n - 1);
    }
  }

  lemma PlaceMeans(artifact: Artifact, answers: seq<Answer>, env: Environment, i: nat, reason: Reason)
    requires StopsAt(artifact, answers, env.writes, i) && reason != IntegrityFailed
    ensures Outcome(artifact, answers, env, i) == Refused(reason)
       <==> exists n: nat :: n <= env.writes && Misplaced(artifact, answers, n, reason)
  {
    hide Corrupt, Received, Unbroken;
    forall n: nat | n <= env.writes && Misplaced(artifact, answers, n, reason)
      ensures n == i
    {
      MisplacedStops(artifact, answers, env.writes, n, reason);
      OneStop(artifact, answers, env.writes, i, n);
    }
    assert Outcome(artifact, answers, env, i) == Refused(reason) ==> Misplaced(artifact, answers, i, reason);
  }

  lemma FailureMeans(artifact: Artifact, answers: seq<Answer>, env: Environment, i: nat)
    requires StopsAt(artifact, answers, env.writes, i)
    ensures Outcome(artifact, answers, env, i) == Failed <==>
      || (exists n: nat :: Breaks(artifact, answers, env.writes, n))
      || (CallsFail(env) && exists n: nat :: n <= env.writes && Complete(artifact, answers, n))
  {
    hide Corrupt, Complete, Received, Unbroken;
    forall n: nat | Breaks(artifact, answers, env.writes, n)
      ensures n == i
    {
      OneStop(artifact, answers, env.writes, i, n);
    }
    forall n: nat | n <= env.writes && Complete(artifact, answers, n)
      ensures n == i + 1 && InPlace(artifact, answers, i) && !Corrupt(artifact, answers, n)
    {
      CorruptStops(artifact, answers, env.writes, n);
      OneStop(artifact, answers, env.writes, i, n - 1);
    }
    if i < env.writes && InPlace(artifact, answers, i) {
      LastDecides(artifact, answers, i);
    }
    assert i < |answers| && Outcome(artifact, answers, env, i) == Failed ==>
      Breaks(artifact, answers, env.writes, i) || (CallsFail(env) && i + 1 <= env.writes && Complete(artifact, answers, i + 1));
  }

  lemma LastDecides(artifact: Artifact, answers: seq<Answer>, i: nat)
    requires Unbroken(artifact, answers, i) && InPlace(artifact, answers, i) && answers[i].last
    ensures Corrupt(artifact, answers, i + 1) <==> !Complete(artifact, answers, i + 1)
  {
    hide Sha256, Received;
  }

  lemma NextChunk(artifact: Artifact, answers: seq<Answer>, n: nat, content: seq<Byte>)
    requires n < |answers| && Gathered(artifact, answers, n, content) && answers[n].Chunk?
    ensures InPlace(artifact, answers, n) <==> answers[n].artifact == artifact && answers[n].offset == |content| % TWO_64
    ensures InPlace(artifact, answers, n) ==>
      if answers[n].last then Ended(artifact, answers, n + 1, content + answers[n].data)
      else Gathered(artifact, answers, n + 1, content + answers[n].data)
  {
  }

  /** The download loop: where it stops and why, with the bytes written to the part file. */
  method Download(files: Files, artifact: Artifact, answers: seq<Answer>, env: Environment)
      returns (stop: Option<Result>, offset: nat, digest: seq<Byte>, n: nat)
    modifies files`part
    ensures stop.None? ==> n <= env.writes && files.part.Some? && Ended(artifact, answers, n, files.part.value)
    ensures stop.None? ==> offset == |files.part.value| % TWO_64 && digest == Sha256(files.part.value)
    ensures stop.Some? ==> !stop.value.Exported? && Incomplete(artifact, answers, env.writes)
    ensures stop == Some(StillDownloading) ==> Unbroken(artifact, answers, |answers|)
    ensures stop.None? ==> n > 0 && StopsAt(artifact, answers, env.writes, n - 1)
    ensures stop.Some? ==> StopsAt(artifact, answers, env.writes, n) && stop.value == Outcome(artifact, answers, env, n)
    ensures stop.Some? && stop.value.Refused? && env.removes ==> files.part == None
  {
    hide Sha256, InPlace, Gathered, Ended, Incomplete, Unbroken, Misplaced, Hasher.Valid;
    var hasher := new Hasher();
    files.part := Some([]);
    offset, n, digest := 0, 0, [];
    Starts(artifact, answers);
    while true
      invariant n <= env.writes && n <= |answers| && hasher.Valid()
      invariant Gathered(artifact, answers, n, hasher.absorbed)
      invariant files.part == Some(hasher.absorbed) && offset == |hasher.absorbed| % TWO_64
      invariant fresh(hasher) && fresh(hasher.state) && fresh(hasher.buffer)
      decreases |answers| - n
    {
      IsUnbroken(artifact, answers, n, hasher.absorbed);
      if n == |answers| {
        stop := Some(StillDownloading);
        NoChunk(artifact, answers, n);
        NeverComplete(artifact, answers, n, env.writes);
        return;
      }
      var answer := answers[n];
      if answer.DownloadFailed? {
        stop := Some(Failed);
        NoChunk(artifact, answers, n);
        NeverComplete(artifact, answers, n, env.writes);
        return;
      }
      NextChunk(artifact, answers, n, hasher.absorbed);
      if answer.artifact != artifact || answer.offset != offset {
        if env.removes {
          files.part := None;
        }
        stop := Some(Refused(if answer.artifact != artifact then IdentityChanged else OffsetMismatch));
        IsMisplaced(artifact, answers, env, n, hasher.absorbed);
        NeverComplete(artifact, answers, n, env.writes);
        return;
      }
      if n == env.writes {
        files.part := *;
        stop := Some(Failed);
        IsUnwritten(artifact, answers, env, n, hasher.absorbed);
        NeverComplete(artifact, answers, n, env.writes);
        return;
      }
      files.part := Some(files.part.value + answer.data);
      LengthGrows(|hasher.absorbed|, |answer.data|);
      hasher.Update(answer.data);
      offset := (offset + |answer.data|) % TWO_64;
      n := n + 1;
      if answer.last {
        digest := hasher.Finalize();
        stop := None;
        return;
      }
    }
  }

  lemma Starts(artifact: Artifact, answers: seq<Answer>)
    ensures Gathered(artifact, answers, 0, [])
  {
  }

  lemma IsUnbroken(artifact: Artifact, answers: seq<Answer>, n: nat, content: seq<Byte>)
    requires Gathered(artifact, answers, n, content)
    ensures Unbroken(artifact, answers, n)
  {
  }

  lemma IsMisplaced(artifact: Artifact, answers: seq<Answer>, env: Environment, n: nat, content: seq<Byte>)
    requires n < |answers| && Gathered(artifact, answers, n, content) && answers[n].Chunk?
    requires answers[n].artifact != artifact || answers[n].offset != |content| % TWO_64
    ensures Outcome(artifact, answers, env, n) == Refused(if answers[n].artifact != artifact then IdentityChanged else OffsetMismatch)
  {
    hide Received;
  }

  lemma IsUnwritten(artifact: Artifact, answers: seq<Answer>, env: Environment, n: nat, content: seq<Byte>)
    requires n == env.writes && n < |answers| && Gathered(artifact, answers, n, content) && InPlace(artifact, answers, n)
    ensures Outcome(artifact, answers, env, n) == Failed
  {
    hide Received;
  }

  lemma NoChunk(artifact: Artifact, answers: seq<Answer>, n: nat)
    requires n < |answers| ==> answers[n].DownloadFailed?
    ensures !InPlace(artifact, answers, n)
  {
  }

  /** What the part file has to be checked against. */
  lemma EndDecides(artifact: Artifact, answers: seq<Answer>, n: nat, content: seq<Byte>)
    requires Ended(artifact, answers, n, content)
    ensures forall k: nat :: Complete(artifact, answers, k) ==> k == n
    ensures Complete(artifact, answers, n) <==> |content| % TWO_64 == artifact.length && Sha256(content) == artifact.sha256
  {
    hide Sha256, Received;
    forall k: nat | Complete(artifact, answers, k)
      ensures k == n
    {
      OneEnd(artifact, answers, n - 1, k);
    }
  }

  /** The first n answers are the whole artifact and every call succeeds, up to the rename. */
  ghost predicate Delivers(artifact: Artifact, answers: seq<Answer>, env: Environment, n: nat)
  {
    Complete(artifact, answers, n) && Smooth(env.(syncsParent := true), n)
  }

  /** Whatever the server sends, and whatever the output was: it is replaced exactly when the answers
      complete the artifact and every call up to the rename succeeds, and then by the artifact; otherwise
      it is untouched.  The export reports success exactly when the parent directory syncs as well. */
  method ExportTo(files: Files, artifact: Artifact, answers: seq<Answer>, env: Environment) returns (result: Result)
    modifies files
    ensures forall n: nat :: Delivers(artifact, answers, env, n) ==>
      n <= |answers| && files.output == Some(Received(answers, n)) && files.part == None
    ensures !(exists n: nat :: Delivers(artifact, answers, env, n)) ==> files.output == old(files.output)
    ensures result.Exported? <==> env.syncsParent && exists n: nat :: Delivers(artifact, answers, env, n)
    ensures !env.syncsParent && (exists n: nat :: Delivers(artifact, answers, env, n)) ==> result == Failed
    ensures result.Exported? ==> result.artifact == artifact
    ensures result == Refused(IntegrityFailed) <==>
      env.available && env.opens && exists n: nat :: n <= env.writes && Corrupt(artifact, answers, n)
    ensures forall reason :: reason != IntegrityFailed ==>
      (result == Refused(reason) <==>
         env.available && env.opens && exists n: nat :: n <= env.writes && Misplaced(artifact, answers, n, reason))
    ensures result == StillDownloading <==>
      env.available && env.opens && |answers| <= env.writes && Unbroken(artifact, answers, |answers|)
    ensures result == Failed <==>
      || !env.available || !env.opens
      || (exists n: nat :: Breaks(artifact, answers, env.writes, n))
      || (CallsFail(env) && exists n: nat :: n <= env.writes && Complete(artifact, answers, n))
    ensures result.Refused? && env.removes ==> files.part == None
  {
    hide Sha256, Received, Complete, Delivers, Incomplete, Ended, Misplaced, Unbroken, StopsAt, Outcome, Corrupt, Breaks;
    if !env.available || !env.opens {
      DeliversNothing(artifact, answers, env);
      return Failed;
    }
    var stop, offset, digest, n := Download(files, artifact, answers, env);
    if stop.Some? {
      DeliversNothing(artifact, answers, env);
      OutcomeMeans(artifact, answers, env, n);
      return stop.value;
    }
    ghost var content := files.part.value;
    DeliversOnly(artifact, answers, env, n, content);
    EndOutcome(artifact, answers, env, n, content);
    OutcomeMeans(artifact, answers, env, n - 1);
    if offset != artifact.length || digest != artifact.sha256 {
      if env.removes {
        files.part := None;
      }
      return Refused(IntegrityFailed);
    }
    if !env.syncs || !env.completes || !env.renames {
      return Failed;
    }
    files.output, files.part := files.part, None;
    assert Delivers(artifact, answers, env, n);
    if !env.syncsParent {
      return Failed;
    }
    return Exported(artifact);
  }

  lemma EndOutcome(artifact: Artifact, answers: seq<Answer>, env: Environment, n: nat, content: seq<Byte>)
    requires Ended(artifact, answers, n, content) && n <= env.writes
    ensures Outcome(artifact, answers, env, n - 1)
         == if |content| % TWO_64 != artifact.length || Sha256(content) != artifact.sha256 then Refused(IntegrityFailed)
            else if CallsFail(env) then Failed else Exported(artifact)
  {
    hide Sha256, Received;
  }

  lemma DeliversNothing(artifact: Artifact, answers: seq<Answer>, env: Environment)
    requires !env.available || !env.opens || Incomplete(artifact, answers, env.writes)
    ensures !(exists n: nat :: Delivers(artifact, answers, env, n))
  {
    hide Complete;
  }

  /** Once the download has ended, its content alone decides. */
  lemma DeliversOnly(artifact: Artifact, answers: seq<Answer>, env: Environment, n: nat, content: seq<Byte>)
    requires Ended(artifact, answers, n, content) && n <= env.writes && env.available && env.opens
    ensures n <= |answers| && Received(answers, n) == content
    ensures forall k: nat :: Delivers(artifact, answers, env, k) <==>
      k == n && env.syncs && env.completes && env.renames && |content| % TWO_64 == artifact.length && Sha256(content) == artifact.sha256
  {
    hide Complete, Sha256, Received;
    EndDecides(artifact, answers, n, content);
  }

  /** So an error can come back although the output already holds the artifact: when nothing fails but
      the sync of the parent directory.  One chunk is enough. */
  lemma FailsAfterReplacing(bytes: seq<Byte>) returns (artifact: Artifact, answers: seq<Answer>, env: Environment)
    requires |bytes| < TWO_64
    ensures Delivers(artifact, answers, env, 1) && Received(answers, 1) == bytes && !env.syncsParent
  {
    hide Sha256;
    artifact := Artifact(|bytes|, Sha256(bytes));
    answers := [Chunk(artifact, 0, bytes, true)];
    env := Environment(true, true, 1, true, true, true, true, false);
    assert Received(answers, 0) == [];
    assert Received(answers, 1) == [] + bytes == bytes;
  }

  // ---- An honest server --------------------------------------------------------------------

  /** Answer i is a slice of the artifact at the offset asked for, nonempty unless the artifact is empty,
      and marked last exactly when it reaches the end. */
  ghost predicate HonestAnswer(bytes: seq<Byte>, artifact: Artifact, answer: Answer, offset: nat)
  {
    && answer.Chunk? && answer.artifact == artifact && answer.offset == offset
    && (offset <= |bytes| ==>
          && offset + |answer.data| <= |bytes|
          && answer.data == bytes[offset..offset + |answer.data|]
          && (offset < |bytes| ==> answer.data != [])
          && (answer.last <==> offset + |answer.data| == |bytes|))
  }

  /** Every answer the client comes to ask for is honest. */
  ghost predicate Honest(bytes: seq<Byte>, artifact: Artifact, answers: seq<Answer>)
  {
    forall i: nat :: i < |answers| && Unbroken(artifact, answers, i) ==> HonestAnswer(bytes, artifact, answers[i], |Received(answers, i)|)
  }

  /** The honest download so far: a proper prefix of the artifact, at least a byte a chunk. */
  ghost predicate Partway(bytes: seq<Byte>, artifact: Artifact, answers: seq<Answer>, i: nat, content: seq<Byte>)
  {
    && i <= |answers| && Gathered(artifact, answers, i, content)
    && i <= |content| <= |bytes| && content == bytes[..|content|]
    && (|content| < |bytes| || (bytes == [] && i == 0))
  }

  lemma HonestStep(bytes: seq<Byte>, artifact: Artifact, answers: seq<Answer>, i: nat, content: seq<Byte>)
    requires |bytes| < TWO_64 && Partway(bytes, artifact, answers, i, content) && i < |answers|
    requires HonestAnswer(bytes, artifact, answers[i], |content|)
    ensures answers[i].Chunk?
    ensures answers[i].last ==> Ended(artifact, answers, i + 1, bytes) && i + 1 <= if bytes == [] then 1 else |bytes|
    ensures !answers[i].last ==> Partway(bytes, artifact, answers, i + 1, content + answers[i].data) && answers[i].data != []
  {
    hide Gathered, Ended, InPlace, Unbroken, Received;
    var offset, data := |content|, answers[i].data;
    assert content + data == bytes[..offset + |data|];
    assert bytes[..|bytes|] == bytes;
    NextChunk(artifact, answers, i, content);
  }

  // The chunks an honest server needs at most: a byte each, or one for the empty artifact.
  function MostChunks(bytes: seq<Byte>): nat { if bytes == [] then 1 else |bytes| }

  /** Against an honest server each chunk shortens what is left.  However many answers there are, either
      the first n of them complete the download, with at most as many chunks as the artifact has bytes
      (one if it is empty), and what was received is the artifact; or there are too few, and they have
      brought a proper prefix of it. */
  lemma {:induction false} HonestServerCompletes(bytes: seq<Byte>, artifact: Artifact, answers: seq<Answer>, i: nat, content: seq<Byte>)
      returns (n: nat)
    requires |bytes| < TWO_64 && artifact == Artifact(|bytes|, Sha256(bytes)) && Honest(bytes, artifact, answers)
    requires Partway(bytes, artifact, answers, i, content)
    ensures n <= |answers|
    ensures (Complete(artifact, answers, n) && Received(answers, n) == bytes && n <= MostChunks(bytes))
         || (n == |answers| < MostChunks(bytes) && Partway(bytes, artifact, answers, n, Received(answers, n)))
    decreases |answers| - i
  {
    hide Sha256, Received, HonestAnswer, Complete, InPlace, Unbroken;
    if i == |answers| {
      n := i;
    } else {
      HonestStep(bytes, artifact, answers, i, content);
      if answers[i].last {
        n := i + 1;
        EndDecides(artifact, answers, n, bytes);
      } else {
        n := HonestServerCompletes(bytes, artifact, answers, i + 1, content + answers[i].data);
      }
    }
  }

  lemma NotRefused(bytes: seq<Byte>, artifact: Artifact, answers: seq<Answer>, n: nat, k: nat, reason: Reason)
    requires Complete(artifact, answers, n)
    ensures !Misplaced(artifact, answers, k, reason) && !Corrupt(artifact, answers, k)
  {
    hide Sha256, Received;
    if Misplaced(artifact, answers, k, reason) {
      OneEnd(artifact, answers, k, n);
    }
    if Corrupt(artifact, answers, k) {
      EndDecides(artifact, answers, k, Received(answers, k));
    }
  }

  lemma CompleteOnce(artifact: Artifact, answers: seq<Answer>, n: nat, k: nat)
    requires Complete(artifact, answers, n) && Complete(artifact, answers, k)
    ensures n == k
  {
    hide Sha256, Received;
    OneEnd(artifact, answers, n - 1, k);
    OneEnd(artifact, answers, k - 1, n);
  }

  /** An export from an honest server that answers often enough: the output becomes the artifact or stays
      what it was, nothing is refused, and if every call succeeds the export does. */
  method ExportFromHonestServer(files: Files, bytes: seq<Byte>, answers: seq<Answer>, env: Environment) returns (result: Result)
    requires |bytes| < TWO_64 && Honest(bytes, Artifact(|bytes|, Sha256(bytes)), answers) && |answers| >= MostChunks(bytes)
    modifies files
    ensures files.output == Some(bytes) || files.output == old(files.output)
    ensures !result.Refused?
    ensures Smooth(env, MostChunks(bytes)) ==> result == Exported(Artifact(|bytes|, Sha256(bytes))) && files.output == Some(bytes)
  {
    hide Sha256, Complete, Received, Honest, Misplaced, Corrupt, Unbroken;
    var artifact := Artifact(|bytes|, Sha256(bytes));
    assert Partway(bytes, artifact, answers, 0, []) by { Starts(artifact, answers); }
    ghost var n := HonestServerCompletes(bytes, artifact, answers, 0, []);
    result := ExportTo(files, artifact, answers, env);
    forall k: nat | Delivers(artifact, answers, env, k)
      ensures k == n
    {
      CompleteOnce(artifact, answers, n, k);
    }
    if result.Refused? {
      ghost var k: nat :| if result.reason == IntegrityFailed then Corrupt(artifact, answers, k)
                          else Misplaced(artifact, answers, k, result.reason);
      NotRefused(bytes, artifact, answers, n, k, result.reason);
    }
    assert Smooth(env, MostChunks(bytes)) ==> Delivers(artifact, answers, env, n);
  }
}
