/** What one restore does, as functions of the stores it reads (gaia_server/restore/orchestrator.py). */
module RestoreModel {
  import opened Wrappers
  import opened MetadataStores

  /** The paths the orchestrator names; every other path is treated alike. */
  datatype RestorePath =
    | CrossHost
    | K8sStatefulRestore
    | QuarantinedForeignHost
    | CriuMigration
    | OtherPath(name: string)

  datatype TrustClass = Degraded | Quarantined | OtherClass(name: string)

  /** A manifest without its own hash: what the manifest hash is computed over. */
  datatype Body = Body(
    manifestId: string,
    checkpointId: string,
    nodeId: string,
    restorePath: RestorePath,
    requestedTrustClass: TrustClass,
    stateHash: string,
    payloadHash: string,
    causalCursor: Option<string>,
    attestationRef: Option<string>,
    admissibilityPolicyRef: Option<string>,
    splitBrainToken: Option<string>,
    otherFields: map<string, string>)

  datatype Manifest = Manifest(manifestHash: string, body: Body)

  /** What the program takes from libraries: decoding, hashing, number parsing and text encoding,
      together with the namespace of the metadata store. */
  datatype Config = Config(
    ns: string,
    decode: Bytes -> Option<Manifest>,
    hashBody: Body -> string,
    hashBytes: Bytes -> string,
    parseCursor: string -> Option<int>,
    encode: string -> Bytes,
    className: TrustClass -> string)

  /** The three stores: metadata, checkpoint payloads, and the sequence numbers of the event stream. */
  datatype World = World(meta: Data, checkpoints: map<string, Bytes>, events: seq<int>)

  /** Each place a restore can raise. */
  datatype RestoreError =
    | ManifestNotFound
    | ManifestUnreadable
    | ManifestUnsigned
    | ManifestHashMismatch
    | AttestationRequired
    | AttestationNotFound
    | CheckpointNotFound
    | PayloadHashMismatch
    | CursorUnreadable
    | ReplayEmpty
    | CriuNotGated
    | SplitBrainLost

  datatype Result<+T> = Ok(value: T) | Err(error: RestoreError) {
    predicate IsFailure() {
      Err?
    }

    function PropagateFailure<U>(): Result<U>
      requires Err?
    {
      Err(error)
    }

    function Extract(): T
      requires Ok?
    {
      value
    }
  }

  datatype Cleared = Cleared(manifest: Manifest, payload: Bytes, replayed: nat)

  datatype RestoreResult = RestoreResult(
    manifestId: string,
    nodeId: string,
    restorePath: RestorePath,
    eventsReplayed: nat,
    grantedTrustClass: TrustClass,
    payload: Bytes)

  const REPLAY_LIMIT := 1000

  /** Neither absent nor empty. */
  predicate Present(s: Option<string>) {
    s.Some? && s.value != ""
  }

  predicate EndsWith(s: string, suffix: string) {
    |suffix| <= |s| && s[|s| - |suffix|..] == suffix
  }

  function ManifestKey(c: Config, id: string): string {
    FullKey(c.ns, "manifests/" + id)
  }

  function AttestationKey(c: Config, ref: string): string {
    FullKey(c.ns, "attestations/" + ref)
  }

  function TrustKey(c: Config, node: string): string {
    FullKey(c.ns, "nodes/" + node + "/trust")
  }

  function ClassBytes(c: Config, t: TrustClass): Bytes {
    c.encode(c.className(t))
  }

  // ------------------------------------------------------------------
  // The steps
  // ------------------------------------------------------------------

  function LoadManifest(c: Config, w: World, id: string): Result<Manifest> {
    match Fetch(w.meta, ManifestKey(c, id))
    case None => Err(ManifestNotFound)
    case Some(raw) =>
      match c.decode(raw)
      case None => Err(ManifestUnreadable)
      case Some(m) => if m.manifestHash == "" then Err(ManifestUnsigned) else Ok(m)
  }

  function VerifyHashes(c: Config, m: Manifest): Result<()> {
    if EndsWith(m.manifestHash, c.hashBody(m.body)) then Ok(()) else Err(ManifestHashMismatch)
  }

  /** The path set `verify_attestation` writes out. */
  predicate NeedsAttestation(p: RestorePath) {
    p in {CrossHost, K8sStatefulRestore, QuarantinedForeignHost, CriuMigration}
  }

  function VerifyAttestation(c: Config, w: World, m: Manifest): Result<()> {
    if NeedsAttestation(m.body.restorePath) && !Present(m.body.attestationRef) then Err(AttestationRequired)
    else if Present(m.body.attestationRef) && AttestationKey(c, m.body.attestationRef.value) !in w.meta then
      Err(AttestationNotFound)
    else Ok(())
  }

  function FetchPayload(c: Config, w: World, m: Manifest): Result<Bytes> {
    if m.body.checkpointId !in w.checkpoints then Err(CheckpointNotFound)
    else
      var payload := w.checkpoints[m.body.checkpointId];
      if m.body.payloadHash != "" && "sha256:" + c.hashBytes(payload) != m.body.payloadHash then
        Err(PayloadHashMismatch)
      else Ok(payload)
  }

  /** The sequence numbers after `after`, in order. */
  function EventsAfter(events: seq<int>, after: int): seq<int> {
    if events == [] then []
    else (if events[0] > after then [events[0]] else []) + EventsAfter(events[1..], after)
  }

  function ReadEvents(events: seq<int>, after: int, limit: nat): seq<int> {
    var tail := EventsAfter(events, after);
    if |tail| <= limit then tail else tail[..limit]
  }

  function ReplayEvents(c: Config, w: World, m: Manifest): Result<nat> {
    if !Present(m.body.causalCursor) then Ok(0)
    else
      match c.parseCursor(m.body.causalCursor.value)
      case None => Err(CursorUnreadable)
      case Some(after) =>
        var events := ReadEvents(w.events, after, REPLAY_LIMIT);
        if events == [] then Err(ReplayEmpty) else Ok(|events|)
  }

  function CheckCriu(m: Manifest): Result<()> {
    if m.body.restorePath == CriuMigration && !Present(m.body.admissibilityPolicyRef) then Err(CriuNotGated)
    else Ok(())
  }

  /** The class granted; its path set is written separately from the one above. */
  function Granted(b: Body): TrustClass {
    if b.restorePath in {CrossHost, K8sStatefulRestore, CriuMigration} then Degraded
    else if b.restorePath == QuarantinedForeignHost then Quarantined
    else b.requestedTrustClass
  }

  /** May this manifest write the trust key now? Without a token always, with one only over the token. */
  predicate MayPromote(c: Config, w: World, m: Manifest) {
    Present(m.body.splitBrainToken) ==>
      Matches(w.meta, TrustKey(c, m.body.nodeId), c.encode(m.body.splitBrainToken.value))
  }

  function WriteTrust(c: Config, w: World, m: Manifest): World {
    w.(meta := w.meta[TrustKey(c, m.body.nodeId) := ClassBytes(c, Granted(m.body))])
  }

  function PromoteTrust(c: Config, w: World, m: Manifest): (World, Result<TrustClass>) {
    if MayPromote(c, w, m) then (WriteTrust(c, w, m), Ok(Granted(m.body))) else (w, Err(SplitBrainLost))
  }

  /** Everything before promotion: reads only. */
  function Checks(c: Config, w: World, id: string): Result<Cleared> {
    var m :- LoadManifest(c, w, id);
    var _ :- VerifyHashes(c, m);
    var _ :- VerifyAttestation(c, w, m);
    var payload :- FetchPayload(c, w, m);
    var n :- ReplayEvents(c, w, m);
    var _ :- CheckCriu(m);
    Ok(Cleared(m, payload, n))
  }

  function Summary(id: string, x: Cleared): RestoreResult {
    RestoreResult(id, x.manifest.body.nodeId, x.manifest.body.restorePath, x.replayed,
                  Granted(x.manifest.body), x.payload)
  }

  /** A whole restore with nobody else about. */
  function Restore(c: Config, w: World, id: string): (World, Result<RestoreResult>) {
    match Checks(c, w, id)
    case Err(e) => (w, Err(e))
    case Ok(x) =>
      var (w', r) := PromoteTrust(c, w, x.manifest);
      (w', match r case Ok(_) => Ok(Summary(id, x)) case Err(e) => Err(e))
  }

  // ------------------------------------------------------------------
  // Keys of different kinds never meet
  // ------------------------------------------------------------------

  lemma FullKeyPlain(ns: string, key: string)
    requires key != "" && key[0] != '/'
    ensures FullKey(ns, key) == "/" + ns + "/" + key
  {
  }

  lemma DropPrefix(p: string, x: string, y: string)
    requires p + x == p + y
    ensures x == y
  {
    assert (p + x)[|p|..] == x;
    assert (p + y)[|p|..] == y;
  }

  lemma DropSuffix(x: string, y: string, s: string)
    requires x + s == y + s
    ensures x == y
  {
    assert |x + s| == |y + s|;
    assert (x + s)[..|x|] == x;
    assert (y + s)[..|y|] == y;
  }

  lemma TrustKeyInjective(c: Config, n1: string, n2: string)
    requires TrustKey(c, n1) == TrustKey(c, n2)
    ensures n1 == n2
  {
    FullKeyPlain(c.ns, "nodes/" + n1 + "/trust");
    FullKeyPlain(c.ns, "nodes/" + n2 + "/trust");
    DropPrefix("/" + c.ns + "/", "nodes/" + n1 + "/trust", "nodes/" + n2 + "/trust");
    DropSuffix("nodes/" + n1, "nodes/" + n2, "/trust");
    DropPrefix("nodes/", n1, n2);
  }

  /** Keys of the three kinds never coincide, whatever the names in them. */
  lemma KeysApart(c: Config, node: string, id: string, ref: string)
    ensures TrustKey(c, node) != ManifestKey(c, id)
    ensures TrustKey(c, node) != AttestationKey(c, ref)
    ensures ManifestKey(c, id) != AttestationKey(c, ref)
  {
    FullKeyPlain(c.ns, "nodes/" + node + "/trust");
    FullKeyPlain(c.ns, "manifests/" + id);
    FullKeyPlain(c.ns, "attestations/" + ref);
    var k := |c.ns| + 2;
    assert TrustKey(c, node)[k] == 'n';
    assert ManifestKey(c, id)[k] == 'm';
    assert AttestationKey(c, ref)[k] == 'a';
  }

  // ------------------------------------------------------------------
  // What the steps mean
  // ------------------------------------------------------------------

  /** `tail` is the stream from place `lo` on, filtered: `idx` lists the places of its events, rising, and
      those are all the places that hold an event after the cursor. */
  ghost predicate Filtered(events: seq<int>, lo: nat, after: int, tail: seq<int>, idx: seq<nat>) {
    && |idx| == |tail|
    && (forall k | 0 <= k < |idx| :: lo <= idx[k] < |events| && events[idx[k]] == tail[k])
    && (forall k, l | 0 <= k < l < |idx| :: idx[k] < idx[l])
    && (forall i | lo <= i < |events| :: events[i] > after <==> i in idx)
  }

  lemma FilteredStep(events: seq<int>, lo: nat, after: int, tail: seq<int>, idx: seq<nat>)
    requires lo < |events| && Filtered(events, lo + 1, after, tail, idx)
    ensures events[lo] > after ==> Filtered(events, lo, after, [events[lo]] + tail, [lo] + idx)
    ensures events[lo] <= after ==> Filtered(events, lo, after, tail, idx)
  {
    forall i
      ensures i in [lo] + idx <==> i == lo || i in idx
    {
    }
  }

  lemma {:induction false} FilteredFrom(events: seq<int>, lo: nat, after: int) returns (idx: seq<nat>)
    requires lo <= |events|
    ensures Filtered(events, lo, after, EventsAfter(events[lo..], after), idx)
    decreases |events| - lo
  {
    if lo == |events| {
      idx := [];
    } else {
      hide Filtered;
      var rest := FilteredFrom(events, lo + 1, after);
      var tail := EventsAfter(events[lo + 1..], after);
      assert events[lo..][1..] == events[lo + 1..];
      FilteredStep(events, lo, after, tail, rest);
      idx := if events[lo] > after then [lo] + rest else rest;
      assert [] + tail == tail;
    }
  }

  /** A read returns the first events after the cursor, in stream order and with their repeats: all of them, or
      as many as the limit allows. */
  lemma EventsAfterMeaning(events: seq<int>, after: int, limit: nat) returns (idx: seq<nat>)
    ensures var r := ReadEvents(events, after, limit);
            && |r| <= |idx| && |r| == (if |idx| <= limit then |idx| else limit)
            && (forall k | 0 <= k < |idx| :: idx[k] < |events|)
            && (forall k | 0 <= k < |r| :: r[k] == events[idx[k]])
            && (forall k, l | 0 <= k < l < |idx| :: idx[k] < idx[l])
            && (forall i | 0 <= i < |events| :: events[i] > after <==> i in idx)
    ensures ReadEvents(events, after, limit) != [] <==> limit > 0 && exists e :: e in events && e > after
  {
    idx := FilteredFrom(events, 0, after);
    assert events[0..] == events;
    var tail := EventsAfter(events, after);
    if e :| e in events && e > after {
      var i :| 0 <= i < |events| && events[i] == e;
      assert i in idx;
    }
    if tail != [] {
      assert events[idx[0]] == tail[0] && idx[0] in idx;
      assert events[idx[0]] in events && events[idx[0]] > after;
    }
  }

  /** The two path sets agree: attestation is demanded of exactly the paths whose granted class does not
      depend on the class requested; on all others the requested class is granted as it is. */
  lemma PathSetsAgree(b: Body)
    ensures NeedsAttestation(b.restorePath) <==>
            forall t :: Granted(b.(requestedTrustClass := t)) in {Degraded, Quarantined}
    ensures NeedsAttestation(b.restorePath) <==>
            forall t, u :: Granted(b.(requestedTrustClass := t)) == Granted(b.(requestedTrustClass := u))
    ensures !NeedsAttestation(b.restorePath) <==> forall t :: Granted(b.(requestedTrustClass := t)) == t
  {
    assert Granted(b.(requestedTrustClass := Degraded)) == Degraded || NeedsAttestation(b.restorePath);
    assert Granted(b.(requestedTrustClass := OtherClass("a"))) == OtherClass("a") || NeedsAttestation(b.restorePath);
    if NeedsAttestation(b.restorePath) {
      assert Granted(b.(requestedTrustClass := OtherClass("a"))) != OtherClass("a");
    }
  }
}
