/** Any number of restores, interleaved at every point where one of them waits, over shared stores. */
module RestoreInterleaving {
  import opened MetadataStores
  import opened RestoreModel

  /** Where one restore stands; each phase carries what the code has in hand there. */
  datatype Phase =
    | Starting
    | Loaded(m: Manifest)
    | Hashed(m: Manifest)
    | Attested(m: Manifest)
    | Fetched(m: Manifest, payload: Bytes)
    | Replayed(m: Manifest, payload: Bytes, replayed: nat)
    | Ready(m: Manifest, payload: Bytes, replayed: nat)
    | Done(m: Manifest, result: RestoreResult)
    | Failed(error: RestoreError)

  datatype Task = Task(manifestId: string, phase: Phase)

  /** A write to a trust key, and the task that made it. */
  datatype Write = Write(task: nat, key: string, value: Bytes)

  datatype System = System(world: World, tasks: seq<Task>, writes: seq<Write>)

  /** `Turn(t)` lets task t run up to its next wait; `Outside(w)` is anything someone else does to the stores. */
  datatype Action = Turn(task: nat) | Outside(world: World)

  predicate Finished(p: Phase) {
    p.Done? || p.Failed?
  }

  function Begin(w: World, ids: seq<string>): System {
    System(w, seq(|ids|, i requires 0 <= i < |ids| => Task(ids[i], Starting)), [])
  }

  function Fail<T>(r: Result<T>): Phase
    requires r.Err?
  {
    Failed(r.error)
  }

  /** The phase after one more step, for every phase but the last one. */
  function NextPhase(c: Config, w: World, id: string, p: Phase): Phase
    requires !p.Ready?
  {
    match p
    case Starting => var r := LoadManifest(c, w, id); if r.Ok? then Loaded(r.value) else Fail(r)
    case Loaded(m) => var r := VerifyHashes(c, m); if r.Ok? then Hashed(m) else Fail(r)
    case Hashed(m) => var r := VerifyAttestation(c, w, m); if r.Ok? then Attested(m) else Fail(r)
    case Attested(m) => var r := FetchPayload(c, w, m); if r.Ok? then Fetched(m, r.value) else Fail(r)
    case Fetched(m, payload) =>
      var r := ReplayEvents(c, w, m); if r.Ok? then Replayed(m, payload, r.value) else Fail(r)
    case Replayed(m, payload, n) => var r := CheckCriu(m); if r.Ok? then Ready(m, payload, n) else Fail(r)
    case Done(_, _) => p
    case Failed(_) => p
  }

  function TakeTurn(c: Config, s: System, t: nat): (r: System)
    requires t < |s.tasks|
    ensures |r.tasks| == |s.tasks|
  {
    var task := s.tasks[t];
    match task.phase
    case Ready(m, payload, n) =>
      var (w, r) := PromoteTrust(c, s.world, m);
      if r.Ok? then
        System(w,
               s.tasks[t := task.(phase := Done(m, Summary(task.manifestId, Cleared(m, payload, n))))],
               s.writes + [Write(t, TrustKey(c, m.body.nodeId), ClassBytes(c, Granted(m.body)))])
      else
        System(w, s.tasks[t := task.(phase := Fail(r))], s.writes)
    case _ =>
      s.(tasks := s.tasks[t := task.(phase := NextPhase(c, s.world, task.manifestId, task.phase))])
  }

  /** A turn of a task that does not exist changes nothing. */
  function Apply(c: Config, s: System, act: Action): System {
    match act
    case Turn(t) => if t < |s.tasks| then TakeTurn(c, s, t) else s
    case Outside(w) => s.(world := w)
  }

  /** The state after the first actions of a run, last one outermost. */
  function Exec(c: Config, s: System, run: seq<Action>): (r: System)
    ensures |r.tasks| == |s.tasks|
  {
    if run == [] then s else Apply(c, Exec(c, s, run[..|run| - 1]), run[|run| - 1])
  }

  function At(c: Config, s: System, run: seq<Action>, i: nat): System
    requires i <= |run|
  {
    Exec(c, s, run[..i])
  }

  lemma AtPrefix(c: Config, s: System, run: seq<Action>, act: Action, i: nat)
    requires i <= |run|
    ensures At(c, s, run + [act], i) == At(c, s, run, i)
  {
    assert (run + [act])[..i] == run[..i];
  }

  lemma TaskIds(c: Config, w: World, ids: seq<string>, run: seq<Action>, t: nat)
    requires t < |ids|
    ensures Exec(c, Begin(w, ids), run).tasks[t].manifestId == ids[t]
  {
    if run != [] {
      TaskIds(c, w, ids, run[..|run| - 1], t);
    }
  }

  /** A task moves only in its own turns. */
  lemma OthersWait(c: Config, s: System, act: Action, t: nat)
    requires t < |s.tasks| && act != Turn(t)
    ensures Apply(c, s, act).tasks[t] == s.tasks[t]
  {
  }

  // ------------------------------------------------------------------
  // Progress
  // ------------------------------------------------------------------

  /** The turns that task t was given in a run. */
  function Turns(run: seq<Action>, t: nat): nat {
    if run == [] then 0
    else Turns(run[..|run| - 1], t) + if run[|run| - 1] == Turn(t) then 1 else 0
  }

  /** The turns that a restore in this phase can still use. */
  function Remaining(p: Phase): nat {
    match p
    case Starting => 7
    case Loaded(_) => 6
    case Hashed(_) => 5
    case Attested(_) => 4
    case Fetched(_, _) => 3
    case Replayed(_, _, _) => 2
    case Ready(_, _, _) => 1
    case Done(_, _) => 0
    case Failed(_) => 0
  }

  lemma TurnProgress(c: Config, s: System, t: nat)
    requires t < |s.tasks|
    ensures var p, q := s.tasks[t].phase, TakeTurn(c, s, t).tasks[t].phase;
            if Finished(p) then q == p else Finished(q) || Remaining(q) == Remaining(p) - 1
    ensures TakeTurn(c, s, t).tasks[t].phase.Done? ==> Remaining(s.tasks[t].phase) <= 1
  {
  }

  /** Nobody waits for anybody: whatever other restores and the rest of the world do in between, a restore
      that has been given seven turns has ended, and none succeeds on fewer. */
  lemma {:induction false} SevenTurns(c: Config, w: World, ids: seq<string>, run: seq<Action>, t: nat)
    requires t < |ids|
    ensures var p := Exec(c, Begin(w, ids), run).tasks[t].phase;
            && (Turns(run, t) >= 7 ==> Finished(p))
            && (p.Done? ==> Turns(run, t) >= 7)
            && (!Finished(p) ==> Remaining(p) + Turns(run, t) == 7)
  {
    if run != [] {
      hide TakeTurn;
      var before, act := run[..|run| - 1], run[|run| - 1];
      var s := Exec(c, Begin(w, ids), before);
      SevenTurns(c, w, ids, before, t);
      if act == Turn(t) {
        TurnProgress(c, s, t);
      } else {
        OthersWait(c, s, act, t);
      }
    }
  }
}
