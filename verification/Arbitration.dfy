/** Who may write a node's trust key, and what it then holds, over every interleaving of restores. */
module Arbitration {
  import opened Wrappers
  import opened MetadataStores
  import opened RestoreModel
  import opened RestoreMeaning
  import opened RestoreInterleaving

  /** Others leave the trust keys alone; they may do anything to the rest of the stores. */
  ghost predicate KeepsTrust(c: Config, v: World, w: World) {
    forall node :: Fetch(v.meta, TrustKey(c, node)) == Fetch(w.meta, TrustKey(c, node))
  }

  ghost predicate Undisturbed(c: Config, s: System, run: seq<Action>) {
    run == [] ||
    (var before, act := run[..|run| - 1], run[|run| - 1];
     Undisturbed(c, s, before) && (act.Outside? ==> KeepsTrust(c, Exec(c, s, before).world, act.world)))
  }

  // ------------------------------------------------------------------
  // The account of writes
  // ------------------------------------------------------------------

  /** A turn either leaves the stores alone or ends a ready restore by writing exactly one key. */
  lemma TurnWrites(c: Config, s: System, t: nat)
    requires t < |s.tasks|
    ensures var s' := TakeTurn(c, s, t); var p := s.tasks[t].phase;
            if p.Ready? && MayPromote(c, s.world, p.m) then
              var x := Write(t, TrustKey(c, p.m.body.nodeId), ClassBytes(c, Granted(p.m.body)));
              && s'.writes == s.writes + [x]
              && s'.world == s.world.(meta := s.world.meta[x.key := x.value])
              && s'.tasks[t].phase.Done? && s'.tasks[t].phase.m == p.m
            else
              s'.writes == s.writes && s'.world == s.world && (s'.tasks[t].phase.Done? ==> p.Done?)
    ensures Finished(s.tasks[t].phase) ==> TakeTurn(c, s, t) == s
    ensures forall u | 0 <= u < |s.tasks| && u != t :: TakeTurn(c, s, t).tasks[u] == s.tasks[u]
  {
  }

  /** The write was made by a restore that succeeded, and says what its manifest allows. */
  ghost predicate Earned(c: Config, s: System, x: Write) {
    && x.task < |s.tasks| && s.tasks[x.task].phase.Done?
    && var m := s.tasks[x.task].phase.m;
       x.key == TrustKey(c, m.body.nodeId) && x.value == ClassBytes(c, Granted(m.body))
  }

  ghost predicate FirstWrite(s: System, i: nat, key: string) {
    i < |s.writes| && s.writes[i].key == key && forall j | 0 <= j < i :: s.writes[j].key != key
  }

  /** A restore that succeeded wrote exactly once, one that did not never. */
  ghost predicate Ledger(c: Config, s: System) {
    && (forall i | 0 <= i < |s.writes| :: Earned(c, s, s.writes[i]))
    && (forall i, j | 0 <= i < j < |s.writes| :: s.writes[i].task != s.writes[j].task)
    && (forall t: nat | t < |s.tasks| && s.tasks[t].phase.Done? :: exists x :: x in s.writes && x.task == t)
  }

  lemma TurnLedger(c: Config, s: System, t: nat)
    requires Ledger(c, s) && t < |s.tasks|
    ensures Ledger(c, TakeTurn(c, s, t))
  {
    TurnWrites(c, s, t);
    hide TakeTurn, MayPromote, TrustKey, ClassBytes;
    var s' := TakeTurn(c, s, t);
    forall i | 0 <= i < |s.writes|
      ensures Earned(c, s', s.writes[i])
    {
      assert Earned(c, s, s.writes[i]);
      assert s.writes[i].task != t || s'.tasks[t] == s.tasks[t];
    }
    forall u: nat | u < |s'.tasks| && s'.tasks[u].phase.Done?
      ensures exists x :: x in s'.writes && x.task == u
    {
      if s.tasks[u].phase.Done? {
        var x :| x in s.writes && x.task == u;
        assert x in s'.writes;
      } else {
        assert s'.writes[|s.writes|].task == u && s'.writes[|s.writes|] in s'.writes;
      }
    }
  }

  lemma {:induction false} RunLedger(c: Config, w: World, ids: seq<string>, run: seq<Action>)
    ensures Ledger(c, Exec(c, Begin(w, ids), run))
  {
    if run != [] {
      hide TakeTurn, Ledger;
      var before, act := run[..|run| - 1], run[|run| - 1];
      var s := Exec(c, Begin(w, ids), before);
      RunLedger(c, w, ids, before);
      match act {
        case Turn(t) => if t < |ids| { TurnLedger(c, s, t); }
        case Outside(v) => OutsideLedger(c, s, v);
      }
    }
  }

  lemma OutsideLedger(c: Config, s: System, w: World)
    requires Ledger(c, s)
    ensures Ledger(c, s.(world := w))
  {
  }

  /** A restore that raised, or has not ended, has written nothing; one that succeeded has written
      exactly one key, the trust key of its node, with the class its manifest earns. */
  lemma OneWriteEach(c: Config, w: World, ids: seq<string>, run: seq<Action>, t: nat)
    requires t < |ids|
    ensures var s := Exec(c, Begin(w, ids), run); var p := s.tasks[t].phase;
            && (!p.Done? ==> forall x | x in s.writes :: x.task != t)
            && (p.Done? ==> exists g ::
                 && RightClass(p.m.body, g)
                 && forall x | x in s.writes ::
                      x.task == t <==> x == Write(t, TrustPlace(c, p.m.body.nodeId), c.encode(c.className(g))))
            && (p.Done? ==> exists x :: x in s.writes && x.task == t)
            && (forall i, j | 0 <= i < j < |s.writes| :: s.writes[i].task != s.writes[j].task)
  {
    hide TakeTurn, Exec, TrustKey, TrustPlace, Granted, RightClass;
    RunLedger(c, w, ids, run);
    var s := Exec(c, Begin(w, ids), run);
    forall x | x in s.writes
      ensures Earned(c, s, x)
    {
    }
    var p := s.tasks[t].phase;
    if p.Done? {
      GrantedIsRight(p.m.body, Granted(p.m.body));
      KeysArePlaces(c, p.m.body.nodeId);
    }
  }

  // ------------------------------------------------------------------
  // What a trust key holds
  // ------------------------------------------------------------------

  /** What a key holds after some writes: the value of the last one to it, or what was there before. */
  function Holds(data: Data, ws: seq<Write>, key: string): Option<Bytes> {
    if ws == [] then Fetch(data, key)
    else if ws[|ws| - 1].key == key then Some(ws[|ws| - 1].value)
    else Holds(data, ws[..|ws| - 1], key)
  }

  /** The trust keys hold what the account of writes says, counted from the start of the run. */
  ghost predicate Accounted(c: Config, w: World, s: System) {
    forall node :: Fetch(s.world.meta, TrustKey(c, node)) == Holds(w.meta, s.writes, TrustKey(c, node))
  }

  lemma TurnAccounted(c: Config, w: World, s: System, t: nat)
    requires Accounted(c, w, s) && t < |s.tasks|
    ensures Accounted(c, w, TakeTurn(c, s, t))
  {
    TurnWrites(c, s, t);
    hide TakeTurn, MayPromote, TrustKey;
    var s' := TakeTurn(c, s, t);
    if s'.writes != s.writes {
      assert s'.writes[..|s'.writes| - 1] == s.writes;
    }
  }

  lemma {:induction false} RunAccounted(c: Config, w: World, ids: seq<string>, run: seq<Action>)
    requires Undisturbed(c, Begin(w, ids), run)
    ensures Accounted(c, w, Exec(c, Begin(w, ids), run))
  {
    if run != [] {
      hide TakeTurn, Holds, TrustKey;
      var before, act := run[..|run| - 1], run[|run| - 1];
      var s := Exec(c, Begin(w, ids), before);
      RunAccounted(c, w, ids, before);
      match act {
        case Turn(t) => if t < |ids| { TurnAccounted(c, w, s, t); }
        case Outside(v) =>
      }
    }
  }

  /** The last write to the key. */
  ghost predicate LastTo(ws: seq<Write>, i: nat, key: string) {
    i < |ws| && ws[i].key == key && forall j | i < j < |ws| :: ws[j].key != key
  }

  lemma {:induction false} HoldsMeaning(data: Data, ws: seq<Write>, key: string)
    ensures (forall x | x in ws :: x.key != key) ==> Holds(data, ws, key) == Fetch(data, key)
    ensures forall i: nat | LastTo(ws, i, key) :: Holds(data, ws, key) == Some(ws[i].value)
    ensures (exists x :: x in ws && x.key == key) ==> exists i: nat :: LastTo(ws, i, key)
    decreases |ws|
  {
    if ws != [] {
      var rest, last := ws[..|ws| - 1], ws[|ws| - 1];
      assert ws == rest + [last];
      HoldsMeaning(data, rest, key);
      forall i: nat | LastTo(ws, i, key)
        ensures Holds(data, ws, key) == Some(ws[i].value)
      {
        if i < |rest| {
          assert LastTo(rest, i, key);
        }
      }
      if last.key == key {
        assert LastTo(ws, |ws| - 1, key);
      } else if x :| x in ws && x.key == key {
        assert x in rest;
        var i: nat :| LastTo(rest, i, key);
        assert LastTo(ws, i, key);
      }
    }
  }

  // ------------------------------------------------------------------
  // Split-brain arbitration
  // ------------------------------------------------------------------

  /** Task `t` succeeded with a manifest for `node` that carries `token`. */
  ghost predicate Wins(s: System, t: nat, node: string, token: string) {
    && t < |s.tasks| && s.tasks[t].phase.Done?
    && s.tasks[t].phase.m.body.nodeId == node && s.tasks[t].phase.m.body.splitBrainToken == Some(token)
  }

  /** When each write was made, the key held the token that its restore carried, if it carried one. */
  ghost predicate TokensHeld(c: Config, w: World, s: System) {
    forall j | 0 <= j < |s.writes| :: TokenHeld(c, w, s, j)
  }

  ghost predicate TokenHeld(c: Config, w: World, s: System, j: nat)
    requires j < |s.writes|
  {
    var x := s.writes[j];
    x.task < |s.tasks| && s.tasks[x.task].phase.Done? ==>
      var token := s.tasks[x.task].phase.m.body.splitBrainToken;
      Present(token) ==> Holds(w.meta, s.writes[..j], x.key) == Some(c.encode(token.value))
  }

  lemma TurnTokensHeld(c: Config, w: World, s: System, t: nat)
    requires Ledger(c, s) && Accounted(c, w, s) && TokensHeld(c, w, s) && t < |s.tasks|
    ensures TokensHeld(c, w, TakeTurn(c, s, t))
  {
    TurnWrites(c, s, t);
    hide TakeTurn, Holds, TrustKey, ClassBytes, Ledger;
    var s' := TakeTurn(c, s, t);
    forall j | 0 <= j < |s'.writes|
      ensures TokenHeld(c, w, s', j)
    {
      if j < |s.writes| {
        assert TokenHeld(c, w, s, j);
        EarnedAt(c, s, j);
        assert s'.writes[..j] == s.writes[..j] && s'.tasks[s.writes[j].task] == s.tasks[s.writes[j].task];
      } else {
        assert s'.writes[..j] == s.writes;
      }
    }
  }

  lemma EarnedAt(c: Config, s: System, j: nat)
    requires Ledger(c, s) && j < |s.writes|
    ensures Earned(c, s, s.writes[j])
  {
  }

  lemma {:induction false} RunTokensHeld(c: Config, w: World, ids: seq<string>, run: seq<Action>)
    requires Undisturbed(c, Begin(w, ids), run)
    ensures TokensHeld(c, w, Exec(c, Begin(w, ids), run))
  {
    if run != [] {
      hide TakeTurn, Ledger, Accounted, KeepsTrust, TokenHeld;
      var before, act := run[..|run| - 1], run[|run| - 1];
      var s := Exec(c, Begin(w, ids), before);
      RunLedger(c, w, ids, before);
      RunAccounted(c, w, ids, before);
      RunTokensHeld(c, w, ids, before);
      match act {
        case Turn(t) => if t < |ids| { TurnTokensHeld(c, w, s, t); }
        case Outside(v) => OutsideTokensHeld(c, w, s, v);
      }
    }
  }

  lemma OutsideTokensHeld(c: Config, w: World, s: System, v: World)
    requires TokensHeld(c, w, s)
    ensures TokensHeld(c, w, s.(world := v))
  {
    forall j | 0 <= j < |s.writes|
      ensures TokenHeld(c, w, s.(world := v), j)
    {
      assert TokenHeld(c, w, s, j);
    }
  }

  /** A key with this history of writes holds the encoded token: nobody wrote it and it was there at the
      start, or the last write put it there. */
  ghost predicate HoldsToken(c: Config, data: Data, ws: seq<Write>, key: string, token: string) {
    || ((forall x | x in ws :: x.key != key) && Matches(data, key, c.encode(token)))
    || exists i: nat :: LastTo(ws, i, key) && ws[i].value == c.encode(token)
  }

  lemma HoldsTokenIff(c: Config, data: Data, ws: seq<Write>, key: string, token: string)
    ensures HoldsToken(c, data, ws, key, token) <==> Holds(data, ws, key) == Some(c.encode(token))
  {
    hide LastTo, Holds;
    HoldsMeaning(data, ws, key);
  }

  /** Arbitration decided, for every token: a restore that has passed its checks and carries a token succeeds
      at its turn exactly if no restore has written the node's trust key yet and it held the token when the
      run began, or the last restore to write it wrote just that token's encoding. */
  lemma TokenWinsIff(c: Config, w: World, ids: seq<string>, run: seq<Action>, t: nat, token: string)
    requires Undisturbed(c, Begin(w, ids), run) && t < |ids| && token != ""
    requires var p := Exec(c, Begin(w, ids), run).tasks[t].phase;
             p.Ready? && p.m.body.splitBrainToken == Some(token)
    ensures var s := Exec(c, Begin(w, ids), run);
            var key := TrustKey(c, s.tasks[t].phase.m.body.nodeId);
            TakeTurn(c, s, t).tasks[t].phase.Done? <==> HoldsToken(c, w.meta, s.writes, key, token)
  {
    hide Exec, ClassBytes, Undisturbed, TakeTurn, TrustKey, Holds;
    RunAccounted(c, w, ids, run);
    var s := Exec(c, Begin(w, ids), run);
    var node := s.tasks[t].phase.m.body.nodeId;
    assert Fetch(s.world.meta, TrustKey(c, node)) == Holds(w.meta, s.writes, TrustKey(c, node));
    TurnWrites(c, s, t);
    HoldsTokenIff(c, w.meta, s.writes, TrustKey(c, node), token);
  }

  /** After one winner: a second restore with the same token for the same node succeeds at its turn exactly if
      the last write to the trust key was the encoding of that token. */
  lemma SecondClaimWinsIff(c: Config, w: World, ids: seq<string>, run: seq<Action>, node: string, token: string,
                           t: nat, u: nat)
    requires Undisturbed(c, Begin(w, ids), run) && u < |ids| && token != ""
    requires Wins(Exec(c, Begin(w, ids), run), t, node, token)
    requires var p := Exec(c, Begin(w, ids), run).tasks[u].phase;
             p.Ready? && p.m.body.nodeId == node && p.m.body.splitBrainToken == Some(token)
    ensures var s := Exec(c, Begin(w, ids), run);
            Wins(TakeTurn(c, s, u), u, node, token) <==>
              exists i: nat :: LastTo(s.writes, i, TrustKey(c, node)) && s.writes[i].value == c.encode(token)
  {
    hide Exec, ClassBytes, Undisturbed, TakeTurn, TrustKey, Ledger;
    RunLedger(c, w, ids, run);
    TokenWinsIff(c, w, ids, run, u, token);
    var s := Exec(c, Begin(w, ids), run);
    TurnWrites(c, s, u);
    var i := WinnerWrote(c, s, t, node, token);
    assert s.writes[i] in s.writes;
  }

  lemma WinnerWrote(c: Config, s: System, t: nat, node: string, token: string) returns (i: nat)
    requires Ledger(c, s) && Wins(s, t, node, token)
    ensures i < |s.writes| && s.writes[i].task == t && s.writes[i].key == TrustKey(c, node)
  {
    var x :| x in s.writes && x.task == t;
    i :| i < |s.writes| && s.writes[i] == x;
    assert Earned(c, s, s.writes[i]);
  }

  /** What a winner found when it wrote: the token as it was at the start, and its write is the first to the
      key, or the token as an earlier restore had written it. */
  lemma WinnerFound(c: Config, w: World, s: System, node: string, token: string, i: nat)
    requires Ledger(c, s) && TokensHeld(c, w, s) && token != ""
    requires i < |s.writes| && s.writes[i].key == TrustKey(c, node) && Wins(s, s.writes[i].task, node, token)
    ensures HoldsToken(c, w.meta, s.writes[..i], TrustKey(c, node), token)
  {
    hide Ledger, Holds;
    assert TokenHeld(c, w, s, i);
    HoldsTokenIff(c, w.meta, s.writes[..i], TrustKey(c, node), token);
  }

  /** Single winner: over every interleaving of any number of restores, if none of them writes the token's own
      encoding to the node's trust key, at most one restore that carries the token for that node succeeds.
      Its write is the first to the key, which held the token at the start: one promotion by anyone else
      beforehand leaves no winner at all. Nobody but restores writes trust keys. */
  lemma SplitBrainSingleWinner(c: Config, w: World, ids: seq<string>, run: seq<Action>,
                               node: string, token: string, t: nat, u: nat)
    requires Undisturbed(c, Begin(w, ids), run) && token != ""
    requires forall x | x in Exec(c, Begin(w, ids), run).writes && x.key == TrustKey(c, node) ::
               x.value != c.encode(token)
    requires Wins(Exec(c, Begin(w, ids), run), t, node, token)
    ensures Wins(Exec(c, Begin(w, ids), run), u, node, token) ==> t == u
    ensures Matches(w.meta, TrustKey(c, node), c.encode(token))
    ensures var s := Exec(c, Begin(w, ids), run);
            exists i: nat :: FirstWrite(s, i, TrustKey(c, node)) && s.writes[i].task == t
  {
    hide TakeTurn, Exec, Undisturbed, TrustKey, Ledger, TokensHeld;
    RunLedger(c, w, ids, run);
    RunTokensHeld(c, w, ids, run);
    var s := Exec(c, Begin(w, ids), run);
    var i := WinnerWrote(c, s, t, node, token);
    WinnerIsFirst(c, w, s, node, token, i);
    if Wins(s, u, node, token) {
      var j := WinnerWrote(c, s, u, node, token);
      WinnerIsFirst(c, w, s, node, token, j);
      assert i == j by {
        assert !(i < j) && !(j < i);
      }
    }
  }

  lemma WinnerIsFirst(c: Config, w: World, s: System, node: string, token: string, i: nat)
    requires Ledger(c, s) && TokensHeld(c, w, s) && token != ""
    requires forall x | x in s.writes && x.key == TrustKey(c, node) :: x.value != c.encode(token)
    requires i < |s.writes| && s.writes[i].key == TrustKey(c, node) && Wins(s, s.writes[i].task, node, token)
    ensures FirstWrite(s, i, TrustKey(c, node)) && Matches(w.meta, TrustKey(c, node), c.encode(token))
  {
    hide Ledger, TokensHeld, TrustKey;
    WinnerFound(c, w, s, node, token, i);
    forall j | 0 <= j < i
      ensures s.writes[..i][j] == s.writes[j] && s.writes[j] in s.writes && s.writes[..i][j] in s.writes[..i]
    {
    }
  }

  /** And the rest lose: once it has been given its seven turns, every other restore for that node with that
      token has ended in an error and has written nothing. */
  lemma OthersEndInError(c: Config, w: World, ids: seq<string>, run: seq<Action>,
                         node: string, token: string, t: nat, u: nat)
    requires Undisturbed(c, Begin(w, ids), run) && token != ""
    requires forall x | x in Exec(c, Begin(w, ids), run).writes && x.key == TrustKey(c, node) ::
               x.value != c.encode(token)
    requires Wins(Exec(c, Begin(w, ids), run), t, node, token)
    requires u < |ids| && u != t && Turns(run, u) >= 7
    ensures var s := Exec(c, Begin(w, ids), run); var p := s.tasks[u].phase;
            || (p.Failed? && forall x | x in s.writes :: x.task != u)
            || (p.Done? && (p.m.body.nodeId != node || p.m.body.splitBrainToken != Some(token)))
  {
    hide Exec, Undisturbed, TrustKey;
    SplitBrainSingleWinner(c, w, ids, run, node, token, t, u);
    SevenTurns(c, w, ids, run, u);
    OneWriteEach(c, w, ids, run, u);
  }

  /** No two classes are stored alike. */
  ghost predicate ClassesApart(c: Config) {
    forall t, u :: c.encode(c.className(t)) == c.encode(c.className(u)) ==> t == u
  }

  /** Trust ceiling: in every reachable state a trust key that a restore has written holds the class its last
      writer's manifest earns. On the first three paths that is degraded, on a quarantined foreign host
      quarantined, whatever was requested; elsewhere it is the class requested. Where classes can be told apart
      in the store, the path can be told from what the key holds. */
  lemma TrustCeiling(c: Config, w: World, ids: seq<string>, run: seq<Action>, node: string, x: Write)
    returns (t: nat)
    requires Undisturbed(c, Begin(w, ids), run)
    requires x in Exec(c, Begin(w, ids), run).writes && x.key == TrustPlace(c, node)
    ensures var s := Exec(c, Begin(w, ids), run);
            && t < |s.tasks| && s.tasks[t].phase.Done? && s.tasks[t].phase.m.body.nodeId == node
            && TrustPlace(c, node) in s.world.meta
            && var b := s.tasks[t].phase.m.body; var held := s.world.meta[TrustPlace(c, node)];
               && (b.restorePath in {CrossHost, K8sStatefulRestore, CriuMigration} ==>
                    held == c.encode(c.className(Degraded)))
               && (b.restorePath == QuarantinedForeignHost ==> held == c.encode(c.className(Quarantined)))
               && (b.restorePath.OtherPath? ==> held == c.encode(c.className(b.requestedTrustClass)))
    ensures ClassesApart(c) ==>
            var s := Exec(c, Begin(w, ids), run);
            var b := s.tasks[t].phase.m.body; var held := s.world.meta[TrustPlace(c, node)];
            && (held == c.encode(c.className(Degraded)) <==>
                 || b.restorePath in {CrossHost, K8sStatefulRestore, CriuMigration}
                 || (b.restorePath.OtherPath? && b.requestedTrustClass == Degraded))
            && (held == c.encode(c.className(Quarantined)) <==>
                 || b.restorePath == QuarantinedForeignHost
                 || (b.restorePath.OtherPath? && b.requestedTrustClass == Quarantined))
    ensures exists i: nat :: var s := Exec(c, Begin(w, ids), run);
              LastTo(s.writes, i, TrustPlace(c, node)) && s.writes[i].task == t
  {
    hide TakeTurn, Exec, Undisturbed, Holds, TrustKey, TrustPlace;
    KeysArePlaces(c, node);
    RunLedger(c, w, ids, run);
    RunAccounted(c, w, ids, run);
    var s := Exec(c, Begin(w, ids), run);
    assert Fetch(s.world.meta, TrustKey(c, node)) == Holds(w.meta, s.writes, TrustKey(c, node));
    HoldsMeaning(w.meta, s.writes, TrustKey(c, node));
    var k: nat :| LastTo(s.writes, k, TrustKey(c, node));
    EarnedAt(c, s, k);
    t := s.writes[k].task;
    TrustKeyInjective(c, s.tasks[t].phase.m.body.nodeId, node);
    assert s.world.meta[TrustKey(c, node)] == c.encode(c.className(Granted(s.tasks[t].phase.m.body)));
  }
}
