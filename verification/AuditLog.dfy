/** The hash-chained audit log: the writer, and the verifier that replays what it wrote. */
module AuditLogs {
  import opened Wrappers

  type Digest = string
  type Bytes = seq<int>

  /** An event, whatever it records. */
  type Event = string

  const FORMAT_VERSION: nat := 5
  const MIN_SUPPORTED_FORMAT_VERSION: nat := 1
  const WITNESS_SCHEME: string := "sha256-blinded-v1"

  datatype RecordBody = RecordBody(
    formatVersion: nat,
    sessionId: string,
    sequence: nat,
    timestamp: nat,
    clientUid: nat,
    previousHash: Digest,
    event: Event)

  datatype CheckpointBody = CheckpointBody(
    formatVersion: nat,
    sessionId: string,
    checkpointSequence: nat,
    previousCheckpointHash: Digest,
    sequence: nat,
    timestamp: nat,
    chainHead: Digest,
    signingKeyId: string,
    final: bool)

  datatype Checkpoint = Checkpoint(
    body: CheckpointBody,
    blindingNonce: string,
    scheme: string,
    commitment: Digest,
    signature: string,
    checkpointHash: Digest)

  datatype Entry = RecordEntry(body: RecordBody, recordHash: Digest) | CheckpointEntry(checkpoint: Checkpoint)

  /** Hashing, encoding and signing, as functions of what is hashed, encoded and signed. */
  datatype Crypto = Crypto(
    genesis: Digest,
    keyId: string,
    hashRecord: RecordBody -> Digest,
    hashCheckpoint: (CheckpointBody, string) -> Digest,
    commit: (CheckpointBody, Bytes) -> Digest,
    message: (CheckpointBody, Digest) -> Bytes,
    sign: Bytes -> Bytes,
    verify: (Bytes, Bytes) -> bool,
    toHex: Bytes -> string,
    fromHex: string -> Option<Bytes>)

  /** Signatures verify and hexadecimal reads back. */
  ghost predicate Agrees(c: Crypto)
  {
    && (forall m :: c.verify(m, c.sign(m)))
    && (forall b :: c.fromHex(c.toHex(b)) == Some(b))
  }

  ghost predicate CollisionFree(c: Crypto)
  {
    forall a, b :: c.hashRecord(a) == c.hashRecord(b) ==> a == b
  }

  ghost predicate CheckpointCollisionFree(c: Crypto)
  {
    forall a, x, b, y :: c.hashCheckpoint(a, x) == c.hashCheckpoint(b, y) ==> a == b
  }

  /** What a checkpoint hash covers besides the body: the other fields, one after another. */
  function Sealed(k: Checkpoint): string
  {
    k.blindingNonce + k.scheme + k.commitment + k.signature
  }

  // ----- The verifier -----

  /** What the verifier expects next. */
  datatype Replay = Replay(
    sessionId: Option<string>,
    expected: nat,
    chainHead: Digest,
    checkpoints: nat,
    checkpointHead: Digest,
    final: bool)

  function Fresh(c: Crypto): Replay
  {
    Replay(None, 1, c.genesis, 0, c.genesis, false)
  }

  predicate SupportedFormat(version: nat)
  {
    MIN_SUPPORTED_FORMAT_VERSION <= version <= FORMAT_VERSION
  }

  predicate SameSession(r: Replay, id: string)
  {
    r.sessionId.None? || r.sessionId.value == id
  }

  predicate ValidCheckpoint(c: Crypto, k: Checkpoint)
  {
    var nonce, signature := c.fromHex(k.blindingNonce), c.fromHex(k.signature);
    && nonce.Some?
    && k.scheme == WITNESS_SCHEME
    && k.commitment == c.commit(k.body, nonce.value)
    && k.checkpointHash == c.hashCheckpoint(k.body, Sealed(k))
    && signature.Some?
    && c.verify(c.message(k.body, k.commitment), signature.value)
  }

  predicate AcceptsRecord(c: Crypto, r: Replay, body: RecordBody, hash: Digest)
  {
    && SupportedFormat(body.formatVersion)
    && SameSession(r, body.sessionId)
    && body.sequence == r.expected
    && body.previousHash == r.chainHead
    && hash == c.hashRecord(body)
  }

  predicate AcceptsCheckpoint(c: Crypto, r: Replay, k: Checkpoint)
  {
    && SupportedFormat(k.body.formatVersion)
    && SameSession(r, k.body.sessionId)
    && k.body.checkpointSequence == r.checkpoints + 1
    && k.body.previousCheckpointHash == r.checkpointHead
    && k.body.sequence == r.expected - 1
    && k.body.chainHead == r.chainHead
    && k.body.signingKeyId == c.keyId
    && ValidCheckpoint(c, k)
  }

  /** The verifier's step over one entry. */
  function Accept(c: Crypto, r: Replay, e: Entry): Option<Replay>
  {
    match e
    case RecordEntry(body, hash) =>
      if AcceptsRecord(c, r, body, hash) then
        Some(r.(sessionId := Some(body.sessionId), chainHead := hash, expected := r.expected + 1))
      else None
    case CheckpointEntry(k) =>
      if AcceptsCheckpoint(c, r, k) then
        Some(r.(sessionId := Some(k.body.sessionId), checkpoints := r.checkpoints + 1,
                checkpointHead := k.checkpointHash, final := k.body.final))
      else None
  }

  /** The verifier's state after the whole log, if it accepts it so far. */
  function Replayed(c: Crypto, log: seq<Entry>): Option<Replay>
  {
    if log == [] then Some(Fresh(c))
    else
      var before := Replayed(c, log[..|log| - 1]);
      if before.None? then None else Accept(c, before.value, log[|log| - 1])
  }

  datatype Report = Report(sessionId: string, records: nat, checkpoints: nat, final: bool, chainHead: Digest)

  /** The verdict: an empty log has no session and is refused. */
  function Verdict(c: Crypto, log: seq<Entry>): Option<Report>
  {
    var r := Replayed(c, log);
    if r.None? || r.value.sessionId.None? || r.value.expected == 0 then None
    else Some(Report(r.value.sessionId.value, r.value.expected - 1, r.value.checkpoints, r.value.final,
                     r.value.chainHead))
  }

  /** `verify_log` as the loop over mutable expectations that it is. */
  method VerifyLog(c: Crypto, log: seq<Entry>) returns (report: Option<Report>)
    ensures report == Verdict(c, log)
  {
    var sessionId: Option<string>, expected, chainHead := None, 1, c.genesis;
    var checkpoints, checkpointHead, final := 0, c.genesis, false;
    for i := 0 to |log|
      invariant expected >= 1
      invariant Replayed(c, log[..i])
                == Some(Replay(sessionId, expected, chainHead, checkpoints, checkpointHead, final))
    {
      assert log[..i + 1][..i] == log[..i];
      ghost var state := Replay(sessionId, expected, chainHead, checkpoints, checkpointHead, final);
      var accepted := false;
      match log[i] {
      case RecordEntry(body, hash) =>
        accepted := SupportedFormat(body.formatVersion) && (sessionId == None || sessionId == Some(body.sessionId))
          && body.sequence == expected && body.previousHash == chainHead && hash == c.hashRecord(body);
        assert accepted == AcceptsRecord(c, state, body, hash);
        sessionId, chainHead, expected := Some(body.sessionId), hash, expected + 1;
      case CheckpointEntry(k) =>
        accepted := SupportedFormat(k.body.formatVersion) && (sessionId == None || sessionId == Some(k.body.sessionId))
          && k.body.checkpointSequence == checkpoints + 1 && k.body.previousCheckpointHash == checkpointHead
          && k.body.sequence == expected - 1 && k.body.chainHead == chainHead && k.body.signingKeyId == c.keyId
          && ValidCheckpoint(c, k);
        assert accepted == AcceptsCheckpoint(c, state, k);
        sessionId, checkpoints, checkpointHead, final := Some(k.body.sessionId), checkpoints + 1, k.checkpointHash,
        k.body.final;
      }
      assert Replayed(c, log[..i + 1]) == Accept(c, state, log[i]);
      if !accepted {
        RefusedStays(c, log, i + 1);
        return None;
      }
    }
    assert log[..|log|] == log;
    if sessionId == None {
      return None;
    }
    return Some(Report(sessionId.value, expected - 1, checkpoints, final, chainHead));
  }

  lemma {:induction false} RefusedStays(c: Crypto, log: seq<Entry>, i: nat)
    requires i <= |log| && Replayed(c, log[..i]).None?
    ensures Replayed(c, log).None?
    decreases |log| - i
  {
    if i == |log| {
      assert log[..i] == log;
    } else {
      assert log[..i + 1][..i] == log[..i];
      RefusedStays(c, log, i + 1);
    }
  }

  // ----- What acceptance means -----

  function Bodies(log: seq<Entry>): seq<RecordBody>
  {
    if log == [] then []
    else
      var before, e := Bodies(log[..|log| - 1]), log[|log| - 1];
      if e.RecordEntry? then before + [e.body] else before
  }

  function CheckpointBodies(log: seq<Entry>): seq<CheckpointBody>
  {
    if log == [] then []
    else
      var before, e := CheckpointBodies(log[..|log| - 1]), log[|log| - 1];
      if e.CheckpointEntry? then before + [e.checkpoint.body] else before
  }

  /** The chain head as a function of the record bodies alone. */
  function Head(c: Crypto, bodies: seq<RecordBody>): Digest
  {
    if bodies == [] then c.genesis else c.hashRecord(bodies[|bodies| - 1])
  }

  /** Each body names the hash of the one before. */
  predicate Linked(c: Crypto, bodies: seq<RecordBody>)
  {
    forall i :: 0 <= i < |bodies| ==> bodies[i].previousHash == Head(c, bodies[..i]) && bodies[i].sequence == i + 1
  }

  lemma {:induction false} AcceptedIsLinked(c: Crypto, log: seq<Entry>)
    requires Replayed(c, log).Some?
    ensures var r, bodies := Replayed(c, log).value, Bodies(log);
            && Linked(c, bodies) && r.chainHead == Head(c, bodies)
            && r.expected == |bodies| + 1 && r.checkpoints == |CheckpointBodies(log)|
  {
    if log != [] {
      var init, e := log[..|log| - 1], log[|log| - 1];
      AcceptedIsLinked(c, init);
      if e.RecordEntry? {
        LinkedSnoc(c, Bodies(init), e.body);
      }
    }
  }

  lemma LinkedSnoc(c: Crypto, bodies: seq<RecordBody>, body: RecordBody)
    requires Linked(c, bodies) && body.previousHash == Head(c, bodies) && body.sequence == |bodies| + 1
    ensures Linked(c, bodies + [body]) && Head(c, bodies + [body]) == c.hashRecord(body)
  {
    var all := bodies + [body];
    forall i | 0 <= i < |all|
      ensures all[i].previousHash == Head(c, all[..i]) && all[i].sequence == i + 1
    {
      assert all[..i] == bodies[..i];
      if i == |bodies| { assert bodies[..i] == bodies; }
    }
  }

  lemma SameLast(c: Crypto, a: seq<RecordBody>, b: seq<RecordBody>)
    requires CollisionFree(c) && Linked(c, a) && Linked(c, b) && 0 < |a| == |b| && Head(c, a) == Head(c, b)
    ensures a[|a| - 1] == b[|a| - 1]
    ensures Head(c, a[..|a| - 1]) == Head(c, b[..|a| - 1])
  {
    var n := |a| - 1;
    assert a[n] == b[n];
    assert a[n].previousHash == Head(c, a[..n]) && b[n].previousHash == Head(c, b[..n]);
  }

  // ----- Exactly what is accepted -----

  function SessionOf(e: Entry): string
  {
    match e case RecordEntry(body, _) => body.sessionId case CheckpointEntry(k) => k.body.sessionId
  }

  function FormatOf(e: Entry): nat
  {
    match e case RecordEntry(body, _) => body.formatVersion case CheckpointEntry(k) => k.body.formatVersion
  }

  /** The hash of the newest checkpoint. */
  function CheckpointHead(c: Crypto, log: seq<Entry>): Digest
  {
    if log == [] then c.genesis
    else if log[|log| - 1].CheckpointEntry? then log[|log| - 1].checkpoint.checkpointHash
    else CheckpointHead(c, log[..|log| - 1])
  }

  /** The record comes right after those before it and is hashed as it stands. */
  predicate FollowsRecords(c: Crypto, before: seq<Entry>, body: RecordBody, hash: Digest)
  {
    && body.sequence == |Bodies(before)| + 1 && body.previousHash == Head(c, Bodies(before))
    && hash == c.hashRecord(body)
  }

  /** The checkpoint is the next one and covers exactly the records before it, under the verifier's key. */
  predicate FollowsCheckpoints(c: Crypto, before: seq<Entry>, body: CheckpointBody)
  {
    && body.checkpointSequence == |CheckpointBodies(before)| + 1
    && body.previousCheckpointHash == CheckpointHead(c, before)
    && body.sequence == |Bodies(before)| && body.chainHead == Head(c, Bodies(before))
    && body.signingKeyId == c.keyId
  }

  /** The witness commits to the body and the decoded nonce, the checkpoint hash covers the body and all other
      fields, and the decoded signature verifies over the message of body and commitment. */
  ghost predicate Witnessed(c: Crypto, k: Checkpoint)
  {
    && k.scheme == "sha256-blinded-v1"
    && (exists nonce :: c.fromHex(k.blindingNonce) == Some(nonce) && k.commitment == c.commit(k.body, nonce))
    && k.checkpointHash == c.hashCheckpoint(k.body, k.blindingNonce + k.scheme + k.commitment + k.signature)
    && exists signature ::
         c.fromHex(k.signature) == Some(signature) && c.verify(c.message(k.body, k.commitment), signature)
  }

  /** The entry at `i` is one that may stand there. */
  ghost predicate InPlace(c: Crypto, log: seq<Entry>, i: nat)
    requires i < |log|
  {
    && 1 <= FormatOf(log[i]) <= 5 && SessionOf(log[i]) == SessionOf(log[0])
    && match log[i]
       case RecordEntry(body, hash) => FollowsRecords(c, log[..i], body, hash)
       case CheckpointEntry(k) => FollowsCheckpoints(c, log[..i], k.body) && Witnessed(c, k)
  }

  lemma WitnessedIff(c: Crypto, k: Checkpoint)
    ensures Witnessed(c, k) <==> ValidCheckpoint(c, k)
  {
  }

  lemma {:induction false} ReplayedIff(c: Crypto, log: seq<Entry>)
    ensures Replayed(c, log).Some? <==> forall i :: 0 <= i < |log| ==> InPlace(c, log, i)
    ensures Replayed(c, log).Some? ==>
              var r := Replayed(c, log).value;
              && r.sessionId == (if log == [] then None else Some(SessionOf(log[0])))
              && r.checkpointHead == CheckpointHead(c, log)
              && (r.final <==> Newest(log).Some? && Newest(log).value.final)
    decreases |log|
  {
    hide ValidCheckpoint, Witnessed, Linked, Head;
    if log != [] {
      var n := |log| - 1;
      var init, e := log[..n], log[n];
      ReplayedIff(c, init);
      forall i | 0 <= i < n
        ensures InPlace(c, log, i) <==> InPlace(c, init, i)
      {
        assert init[..i] == log[..i];
      }
      if Replayed(c, init).Some? {
        AcceptedIsLinked(c, init);
        if e.CheckpointEntry? { WitnessedIff(c, e.checkpoint); }
        assert Accept(c, Replayed(c, init).value, e).Some? <==> InPlace(c, log, n);
      }
    }
  }

  /** A log is accepted exactly when it has an entry and every entry may stand where it stands. */
  lemma AcceptedIff(c: Crypto, log: seq<Entry>)
    ensures Verdict(c, log).Some? <==> log != [] && forall i :: 0 <= i < |log| ==> InPlace(c, log, i)
    ensures Verdict(c, log).Some? ==>
              Verdict(c, log).value
              == Report(SessionOf(log[0]), |Bodies(log)|, |CheckpointBodies(log)|,
                        Newest(log).Some? && Newest(log).value.final, Head(c, Bodies(log)))
  {
    hide InPlace;
    ReplayedIff(c, log);
    if Replayed(c, log).Some? { AcceptedIsLinked(c, log); }
  }

  /** One checkpoint with a signature that does not decode or does not verify makes the log refused. */
  lemma UnsignedIsRefused(c: Crypto, log: seq<Entry>, i: nat)
    requires i < |log| && log[i].CheckpointEntry?
    requires var k := log[i].checkpoint;
             var signature := c.fromHex(k.signature);
             signature.None? || !c.verify(c.message(k.body, k.commitment), signature.value)
    ensures Verdict(c, log).None?
  {
    AcceptedIff(c, log);
    assert !InPlace(c, log, i);
  }

  /** Equal heads over chains of equal length have equal bodies, all the way back. */
  lemma {:induction false} HeadFixesBodies(c: Crypto, a: seq<RecordBody>, b: seq<RecordBody>)
    requires CollisionFree(c) && Linked(c, a) && Linked(c, b) && |a| == |b| && Head(c, a) == Head(c, b)
    ensures a == b
    decreases |a|
  {
    hide Linked, Head, CollisionFree;
    if a != [] {
      var n := |a| - 1;
      SameLast(c, a, b);
      LinkedPrefix(c, a, n);
      LinkedPrefix(c, b, n);
      HeadFixesBodies(c, a[..n], b[..n]);
      assert a == a[..n] + [a[n]] && b == b[..n] + [b[n]];
    }
  }

  lemma LinkedPrefix(c: Crypto, bodies: seq<RecordBody>, n: nat)
    requires n <= |bodies| && Linked(c, bodies)
    ensures Linked(c, bodies[..n])
  {
    forall i | 0 <= i < n
      ensures bodies[..n][i].previousHash == Head(c, bodies[..n][..i]) && bodies[..n][i].sequence == i + 1
    {
      assert bodies[..n][..i] == bodies[..i];
    }
  }

  /** Two accepted logs with the same record count and chain head hold identical records. */
  lemma SameHeadSameRecords(c: Crypto, a: seq<Entry>, b: seq<Entry>)
    requires CollisionFree(c) && Verdict(c, a).Some? && Verdict(c, b).Some?
    requires Verdict(c, a).value.records == Verdict(c, b).value.records
    requires Verdict(c, a).value.chainHead == Verdict(c, b).value.chainHead
    ensures Bodies(a) == Bodies(b)
  {
    AcceptedIsLinked(c, a);
    AcceptedIsLinked(c, b);
    HeadFixesBodies(c, Bodies(a), Bodies(b));
  }

  /** Every prefix of an accepted log is accepted. */
  lemma {:induction false} PrefixAccepted(c: Crypto, log: seq<Entry>, n: nat)
    requires Replayed(c, log).Some? && n <= |log|
    ensures Replayed(c, log[..n]).Some?
    decreases |log|
  {
    if n == |log| {
      assert log[..n] == log;
    } else {
      PrefixAccepted(c, log[..|log| - 1], n);
      assert log[..|log| - 1][..n] == log[..n];
    }
  }

  /** Whatever follows, an accepted checkpoint fixes the exact records before it: a checkpoint with the
      same body in another accepted log has the same records before it there. */
  lemma CheckpointFixesPrefix(c: Crypto, a: seq<Entry>, i: nat, b: seq<Entry>, j: nat)
    requires CollisionFree(c) && Replayed(c, a).Some? && Replayed(c, b).Some?
    requires i < |a| && a[i].CheckpointEntry? && j < |b| && b[j].CheckpointEntry?
    requires a[i].checkpoint.body == b[j].checkpoint.body
    ensures Bodies(a[..i]) == Bodies(b[..j])
    ensures |Bodies(a[..i])| == a[i].checkpoint.body.sequence
  {
    AtCheckpoint(c, a, i);
    AtCheckpoint(c, b, j);
    HeadFixesBodies(c, Bodies(a[..i]), Bodies(b[..j]));
  }

  lemma AtCheckpoint(c: Crypto, log: seq<Entry>, i: nat)
    requires Replayed(c, log).Some? && i < |log| && log[i].CheckpointEntry?
    ensures var body, bodies := log[i].checkpoint.body, Bodies(log[..i]);
            && Linked(c, bodies) && body.sequence == |bodies| && body.chainHead == Head(c, bodies)
            && body.checkpointSequence == |CheckpointBodies(log[..i])| + 1
  {
    PrefixAccepted(c, log, i);
    PrefixAccepted(c, log, i + 1);
    assert log[..i + 1][..i] == log[..i];
    AcceptedIsLinked(c, log[..i]);
  }

  /** The checkpoints are chained too: the last checkpoint hash fixes all of them. */
  lemma {:induction false} CheckpointHeadFixesCheckpoints(c: Crypto, a: seq<Entry>, b: seq<Entry>)
    requires CheckpointCollisionFree(c) && Replayed(c, a).Some? && Replayed(c, b).Some?
    requires Replayed(c, a).value.checkpoints == Replayed(c, b).value.checkpoints
    requires Replayed(c, a).value.checkpointHead == Replayed(c, b).value.checkpointHead
    ensures CheckpointBodies(a) == CheckpointBodies(b)
    decreases |a| + |b|
  {
    AcceptedIsLinked(c, a);
    AcceptedIsLinked(c, b);
    if a != [] && a[|a| - 1].RecordEntry? {
      CheckpointHeadFixesCheckpoints(c, a[..|a| - 1], b);
    } else if b != [] && b[|b| - 1].RecordEntry? {
      CheckpointHeadFixesCheckpoints(c, a, b[..|b| - 1]);
    } else if a != [] && b != [] {
      CheckpointHeadFixesCheckpoints(c, a[..|a| - 1], b[..|b| - 1]);
    }
  }

  // ----- What the final flag says -----

  /** The newest checkpoint of a log. */
  function Newest(log: seq<Entry>): Option<CheckpointBody>
  {
    if log == [] then None
    else if log[|log| - 1].CheckpointEntry? then Some(log[|log| - 1].checkpoint.body)
    else Newest(log[..|log| - 1])
  }

  /** The newest checkpoint vouches for every record. */
  predicate Covered(log: seq<Entry>)
  {
    Newest(log).Some? && Newest(log).value.sequence == |Bodies(log)|
  }

  lemma {:induction false} NewestFacts(c: Crypto, log: seq<Entry>)
    requires Replayed(c, log).Some?
    ensures Replayed(c, log).value.final <==> Newest(log).Some? && Newest(log).value.final
    ensures Newest(log).Some? ==> Newest(log).value.sequence <= |Bodies(log)|
    ensures Covered(log) <==> Newest(log).Some? && log[|log| - 1].CheckpointEntry?
  {
    if log != [] {
      var init := log[..|log| - 1];
      NewestFacts(c, init);
      AcceptedIsLinked(c, init);
    }
  }

  /** The flag is the newest checkpoint's, and that checkpoint covers the whole log if and only if it is
      the last entry. */
  lemma FinalCoversIff(c: Crypto, log: seq<Entry>)
    requires Verdict(c, log).Some? && Verdict(c, log).value.final
    ensures Newest(log).Some? && Newest(log).value.final
    ensures Covered(log) <==> log[|log| - 1].CheckpointEntry?
  {
    NewestFacts(c, log);
  }

  /** The record that would come next after an accepted log, as anyone can write it. */
  function NextRecord(c: Crypto, report: Report, timestamp: nat, uid: nat, event: Event): Entry
  {
    var body := RecordBody(FORMAT_VERSION, report.sessionId, report.records + 1, timestamp, uid, report.chainHead,
                           event);
    RecordEntry(body, c.hashRecord(body))
  }

  /** A closed log with one more linked record, which nothing signs, is accepted with the flag still set
      and that record not covered. */
  lemma UnsignedAfterClose(c: Crypto, log: seq<Entry>, timestamp: nat, uid: nat, event: Event)
    requires Verdict(c, log).Some? && Verdict(c, log).value.final
    ensures var report := Verdict(c, log).value;
            var e := NextRecord(c, report, timestamp, uid, event);
            && Verdict(c, log + [e]) == Some(report.(records := report.records + 1, chainHead := e.recordHash))
            && !Covered(log + [e])
  {
    var e := NextRecord(c, Verdict(c, log).value, timestamp, uid, event);
    LogSnoc(c, log, e);
    AcceptedIsLinked(c, log);
    FinalCoversIff(c, log + [e]);
  }

  // ----- The writer -----

  /** A checkpoint as the writer makes it. */
  function Signed(c: Crypto, body: CheckpointBody, nonce: Bytes): Checkpoint
  {
    var commitment := c.commit(body, nonce);
    var signature := c.toHex(c.sign(c.message(body, commitment)));
    var blank := Checkpoint(body, c.toHex(nonce), WITNESS_SCHEME, commitment, signature, []);
    blank.(checkpointHash := c.hashCheckpoint(body, Sealed(blank)))
  }

  lemma SignedIsValid(c: Crypto, body: CheckpointBody, nonce: Bytes)
    requires Agrees(c)
    ensures ValidCheckpoint(c, Signed(c, body, nonce)) && Signed(c, body, nonce).body == body
  {
  }

  lemma LogSnoc(c: Crypto, log: seq<Entry>, e: Entry)
    requires Replayed(c, log).Some?
    ensures Replayed(c, log + [e]) == Accept(c, Replayed(c, log).value, e)
    ensures Bodies(log + [e]) == if e.RecordEntry? then Bodies(log) + [e.body] else Bodies(log)
  {
    assert (log + [e])[..|log|] == log;
  }

  class AuditLogWriter {
    const crypto: Crypto
    const sessionId: string
    const clientUid: nat
    const checkpointInterval: nat
    var sequence: nat
    var chainHead: Digest
    var checkpointSequence: nat
    var checkpointHead: Digest
    var closed: bool
    var log: seq<Entry>

    /** The verifier, replaying what was written so far, stands exactly where the writer does. */
    ghost predicate Valid()
      reads this
    {
      && Agrees(crypto)
      && checkpointInterval > 0
      && checkpointSequence == Due(sequence, checkpointInterval) + (if closed then 1 else 0)
      && |Bodies(log)| == sequence
      && Replayed(crypto, log) ==
           Some(Replay(if log == [] then None else Some(sessionId), sequence + 1, chainHead, checkpointSequence,
                       checkpointHead, closed))
    }

    constructor (crypto: Crypto, sessionId: string, clientUid: nat, checkpointInterval: nat)
      requires Agrees(crypto) && checkpointInterval > 0
      ensures Valid() && !closed && log == [] && sequence == 0
      ensures this.crypto == crypto && this.checkpointInterval == checkpointInterval && this.sessionId == sessionId
    {
      this.crypto, this.sessionId, this.clientUid, this.checkpointInterval := crypto, sessionId, clientUid,
      checkpointInterval;
      sequence, chainHead, checkpointSequence, checkpointHead := 0, crypto.genesis, 0, crypto.genesis;
      closed, log := false, [];
    }

    method WriteEntry(e: Entry)
      modifies this`log
      ensures log == old(log) + [e]
    {
      log := log + [e];
    }

    method WriteCheckpoint(timestamp: nat, nonce: Bytes, final: bool)
      requires Agrees(crypto) && checkpointInterval > 0 && !closed
      requires Replayed(crypto, log) ==
                 Some(Replay(if log == [] then None else Some(sessionId), sequence + 1, chainHead,
                             checkpointSequence, checkpointHead, false))
      modifies this`checkpointSequence, this`checkpointHead, this`log, this`closed
      ensures closed == final && checkpointSequence == old(checkpointSequence) + 1
      ensures |log| == |old(log)| + 1 && old(log) <= log && log[|old(log)|].CheckpointEntry?
      ensures log[|old(log)|].checkpoint.body == CheckpointBody(
                FORMAT_VERSION, sessionId, checkpointSequence, old(checkpointHead), sequence, timestamp, chainHead,
                crypto.keyId, final)
      ensures Bodies(log) == Bodies(old(log))
      ensures Replayed(crypto, log) ==
                Some(Replay(Some(sessionId), sequence + 1, chainHead, checkpointSequence, checkpointHead, final))
    {
      hide Replayed, ValidCheckpoint, Agrees, Bodies, Signed;
      checkpointSequence := checkpointSequence + 1;
      var body := CheckpointBody(
        FORMAT_VERSION, sessionId, checkpointSequence, checkpointHead, sequence, timestamp, chainHead, crypto.keyId,
        final);
      var checkpoint := Signed(crypto, body, nonce);
      SignedIsValid(crypto, body, nonce);
      LogSnoc(crypto, log, CheckpointEntry(checkpoint));
      WriteEntry(CheckpointEntry(checkpoint));
      checkpointHead := checkpoint.checkpointHash;
      closed := final;
    }

    /** Append one record, and a checkpoint after every `checkpointInterval` records. */
    method Append(event: Event, timestamp: nat, checkpointTime: nat, nonce: Bytes)
      requires Valid() && !closed
      modifies this`sequence, this`chainHead, this`checkpointSequence, this`checkpointHead, this`log, this`closed
      ensures Valid() && !closed && sequence == old(sequence) + 1 && old(log) < log
      ensures Bodies(log) == old(Bodies(log)) +
                [RecordBody(FORMAT_VERSION, sessionId, sequence, timestamp, clientUid, old(chainHead), event)]
    {
      hide Due, MultipleOf, Replayed, Bodies, Agrees;
      sequence := sequence + 1;
      var body := RecordBody(FORMAT_VERSION, sessionId, sequence, timestamp, clientUid, chainHead, event);
      var recordHash := crypto.hashRecord(body);
      LogSnoc(crypto, log, RecordEntry(body, recordHash));
      WriteEntry(RecordEntry(body, recordHash));
      chainHead := recordHash;
      assert Replayed(crypto, log)
             == Some(Replay(Some(sessionId), sequence + 1, chainHead, checkpointSequence, checkpointHead, false));
      DueNext(sequence, checkpointInterval);
      if MultipleOf(sequence, checkpointInterval) {
        WriteCheckpoint(checkpointTime, nonce, false);
      }
    }

    /** The final checkpoint. */
    method Close(timestamp: nat, nonce: Bytes)
      requires Valid() && !closed
      modifies this`checkpointSequence, this`checkpointHead, this`log, this`closed
      ensures Valid() && closed && old(log) < log && Bodies(log) == old(Bodies(log))
      ensures EndsFinally(log, sequence)
    {
      WriteCheckpoint(timestamp, nonce, true);
    }
  }

  /** The periodic checkpoints due after `n` records. */
  function Due(n: nat, interval: nat): nat
    requires interval > 0
  {
    n / interval
  }

  predicate MultipleOf(n: nat, interval: nat)
    requires interval > 0
  {
    n % interval == 0
  }

  lemma DueNext(n: nat, interval: nat)
    requires n > 0 && interval > 0
    ensures Due(n, interval) == Due(n - 1, interval) + (if MultipleOf(n, interval) then 1 else 0)
  {
    Quotient(n, interval);
  }

  /** A quotient grows by one exactly at the multiples. */
  lemma Quotient(n: nat, k: nat)
    requires n > 0 && k > 0
    ensures n / k == (n - 1) / k + (if n % k == 0 then 1 else 0)
  {
    var q, r := (n - 1) / k, (n - 1) % k;
    assert n - 1 == q * k + r;
    if r == k - 1 {
      assert (q + 1) * k == q * k + k;
      DivisionUnique(n, k, q + 1, 0);
    } else {
      DivisionUnique(n, k, q, r + 1);
    }
  }

  lemma DivisionUnique(n: nat, k: nat, q: nat, r: nat)
    requires k > 0 && r < k && n == q * k + r
    ensures n / k == q && n % k == r
  {
    var q', r' := n / k, n % k;
    assert n == q' * k + r';
    assert (q - q') * k == q * k - q' * k;
    AtLeastOnce(q - q', k);
    AtLeastOnce(q' - q, k);
    assert (q' - q) * k == q' * k - q * k;
  }

  lemma AtLeastOnce(a: int, k: nat)
    requires k > 0
    ensures a >= 1 ==> a * k >= k
  {
    if a >= 1 {
      assert a * k == (a - 1) * k + k;
      assert (a - 1) * k >= 0;
    }
  }

  /** What a writer is asked to record: an event and the clock and nonce readings that go with it. */
  datatype Input = Input(event: Event, timestamp: nat, checkpointTime: nat, nonce: Bytes)

  lemma AllPrefixesAccepted(c: Crypto, log: seq<Entry>)
    requires Replayed(c, log).Some?
    ensures forall n :: 0 < n <= |log| ==> Verdict(c, log[..n]).Some?
  {
    forall n | 0 < n <= |log|
      ensures Verdict(c, log[..n]).Some?
    {
      PrefixAccepted(c, log, n);
      AcceptedIsLinked(c, log[..n]);
    }
  }

  /** The last entry is a final checkpoint over `n` records. */
  predicate EndsFinally(log: seq<Entry>, n: nat)
  {
    log != [] && log[|log| - 1].CheckpointEntry? && log[|log| - 1].checkpoint.body.final
    && log[|log| - 1].checkpoint.body.sequence == n
  }

  predicate Records(log: seq<Entry>, inputs: seq<Input>)
  {
    |Bodies(log)| == |inputs| && forall i :: 0 <= i < |inputs| ==> Bodies(log)[i].event == inputs[i].event
  }

  datatype Written = Written(log: seq<Entry>, chainHead: Digest)

  /** A whole session: appending every event and closing yields a log the verifier accepts, with one
      record per event, one checkpoint per interval and a final one, and the writer's chain head; and
      every non-empty prefix of it is accepted too. A checkpoint interval of zero is refused. */
  method WriteSession(
    crypto: Crypto, sessionId: string, uid: nat, interval: nat, inputs: seq<Input>, closeTime: nat, closeNonce: Bytes)
    returns (written: Option<Written>)
    requires Agrees(crypto)
    ensures written.None? <==> interval == 0
    ensures written.Some? ==>
              var log := written.value.log;
              && Verdict(crypto, log)
                 == Some(Report(sessionId, |inputs|, |inputs| / interval + 1, true, written.value.chainHead))
              && Records(log, inputs) && EndsFinally(log, |inputs|)
              && forall n :: 0 < n <= |log| ==> Verdict(crypto, log[..n]).Some?
  {
    hide Bodies, Replayed, Agrees;
    if interval == 0 {
      return None;
    }
    var writer := new AuditLogWriter(crypto, sessionId, uid, interval);
    NoRecords();
    for i := 0 to |inputs|
      invariant fresh(writer) && writer.Valid() && !writer.closed && writer.sequence == i
      invariant writer.crypto == crypto && writer.checkpointInterval == interval && writer.sessionId == sessionId
      invariant Records(writer.log, inputs[..i])
    {
      writer.Append(inputs[i].event, inputs[i].timestamp, inputs[i].checkpointTime, inputs[i].nonce);
    }
    writer.Close(closeTime, closeNonce);
    AllPrefixesAccepted(crypto, writer.log);
    assert inputs[..|inputs|] == inputs;
    return Some(Written(writer.log, writer.chainHead));
  }

  lemma NoRecords()
    ensures Records([], [])
  {
  }
}
