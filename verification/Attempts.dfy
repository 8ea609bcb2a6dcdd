/** Where a failed attempt leaves the runtime: an attempt runs from one claim to the next, and
    RETRYABLE_FAILED does not say which generation is active
    (mesa_storage/rebuild_cutover.py, mesa_memory/rebuild_runner.py). */
module Attempts {
  import opened Wrappers
  import opened Operations
  import opened Generations
  import opened Cutover

  // ---------------------------------------------------------------------------
  // What an attempt did
  // ---------------------------------------------------------------------------

  /** The guard under which the next effect of runner `r` moves the runtime to the target. */
  predicate Moves(cfg: Config, w: World, a: Action, r: string) {
    && a.Advance? && a.runner == r && PcOf(w, r).Resolved?
    && PcOf(w, r).seen.active == PcOf(w, r).src
    && CanActivate(w.db, cfg.opId, PcOf(w, r).c, cfg.target, PcOf(w, r).src, PcOf(w, r).seen.fence)
  }

  /** The guard under which it rolls the runtime back. */
  predicate Restores(cfg: Config, w: World, a: Action, r: string) {
    && a.Advance? && a.runner == r && PcOf(w, r).PostFailed?
    && CanRollback(w.db, cfg.opId, PcOf(w, r).c, cfg.target, PcOf(w, r).runtimeFence)
  }

  /** Runner `r` moved the runtime during `body`. */
  predicate Moved(cfg: Config, w: World, r: string, body: seq<Action>)
    requires cfg.opId in w.db.operations
  {
    body != [] &&
      var init := body[..|body| - 1];
      Moved(cfg, w, r, init) || Moves(cfg, Cutover.Run(cfg, w, init), body[|body| - 1], r)
  }

  /** Runner `r` rolled the runtime back during `body`. */
  predicate Restored(cfg: Config, w: World, r: string, body: seq<Action>)
    requires cfg.opId in w.db.operations
  {
    body != [] &&
      var init := body[..|body| - 1];
      Restored(cfg, w, r, init) || Restores(cfg, Cutover.Run(cfg, w, init), body[|body| - 1], r)
  }

  // ---------------------------------------------------------------------------
  // One step of an attempt
  // ---------------------------------------------------------------------------

  /** The row only changes hands by a claim, and a claim raises the fence. */
  predicate SameHands(before: Operation, after: Operation) {
    || after.fence > before.fence
    || (&& after.fence == before.fence && (after.claimedBy.None? || after.claimedBy == before.claimedBy)
        && after.attempts == before.attempts && after.retryLimit == before.retryLimit)
  }

  lemma TransitionKeepsHands(op: Operation, c: Claim, q: Request)
    ensures Transition(op, c, q).Success? ==> SameHands(op, Transition(op, c, q).value)
  {
  }

  lemma PrepareKeepsHands(cfg: Config, w: World, r: string, ch: Choice)
    requires cfg.opId in w.db.operations
    ensures cfg.opId in Prepare(cfg, w, r, ch).db.operations
    ensures SameHands(Row(cfg, w), Row(cfg, Prepare(cfg, w, r, ch)))
    ensures Prepare(cfg, w, r, ch).db.runtime == w.db.runtime
  {
    var op, pc := Row(cfg, w), PcOf(w, r);
    match pc
    case Preflighted(c, src) => TransitionKeepsHands(op, c, Request(Running, None, Some(src), None, false));
    case Prepared(c, src) => TransitionKeepsHands(op, c, Request(Running, None, None, Some(cfg.target), false));
    case Replaying(c, src) =>
      TransitionKeepsHands(op, c, Request(Verifying, Some((ch.total, ch.total)), None, None, false));
      TransitionKeepsHands(op, c, Request(Running, Some((ch.completed, ch.total)), None, None, false));
    case _ =>
  }

  lemma GateKeepsHands(cfg: Config, w: World, r: string, ch: Choice)
    requires cfg.opId in w.db.operations && Gating(PcOf(w, r))
    ensures cfg.opId in Gate(cfg, w, r, ch).db.operations
    ensures SameHands(Row(cfg, w), Row(cfg, Gate(cfg, w, r, ch)))
    ensures !Moves(cfg, w, Advance(r, ch), r) ==> Gate(cfg, w, r, ch).db.runtime == w.db.runtime
    ensures Moves(cfg, w, Advance(r, ch), r) ==> Gate(cfg, w, r, ch).db.runtime.active == cfg.target
  {
    var pc := PcOf(w, r);
    if pc.Resolved? {
      ResolvedKeepsHands(cfg, w, r, ch);
    } else if pc.Verified? {
      TransitionKeepsHands(Row(cfg, w), pc.c,
                           Request(ReadyToCutover, Some((pc.total, pc.total)), None, None, false));
    }
  }

  lemma ResolvedKeepsHands(cfg: Config, w: World, r: string, ch: Choice)
    requires cfg.opId in w.db.operations && PcOf(w, r).Resolved?
    ensures cfg.opId in Gate(cfg, w, r, ch).db.operations && Row(cfg, Gate(cfg, w, r, ch)) == Row(cfg, w)
    ensures !Moves(cfg, w, Advance(r, ch), r) ==> Gate(cfg, w, r, ch).db.runtime == w.db.runtime
    ensures Moves(cfg, w, Advance(r, ch), r) ==> Gate(cfg, w, r, ch).db.runtime.active == cfg.target
  {
  }

  lemma MarkingKeepsHands(cfg: Config, w: World, r: string)
    requires cfg.opId in w.db.operations
    ensures cfg.opId in MarkFailure(cfg, w, r).db.operations
    ensures SameHands(Row(cfg, w), Row(cfg, MarkFailure(cfg, w, r)))
    ensures MarkFailure(cfg, w, r).db.runtime == w.db.runtime && MarkFailure(cfg, w, r).runners == w.runners
  {
  }

  lemma ConcludeKeepsHands(cfg: Config, w: World, r: string, ch: Choice)
    requires cfg.opId in w.db.operations
    ensures cfg.opId in Conclude(cfg, w, r, ch).db.operations
    ensures SameHands(Row(cfg, w), Row(cfg, Conclude(cfg, w, r, ch)))
    ensures !Restores(cfg, w, Advance(r, ch), r) ==> Conclude(cfg, w, r, ch).db.runtime == w.db.runtime
    ensures Restores(cfg, w, Advance(r, ch), r) ==>
              && w.db.runtime.previous == Some(Conclude(cfg, w, r, ch).db.runtime.active)
              && PcOf(Conclude(cfg, w, r, ch), r).Recording?
  {
    var op := Row(cfg, w);
    match PcOf(w, r)
    case Published(c, _, total, _) =>
      TransitionKeepsHands(op, c, Request(Completed, Some((total, total)), None, None, false));
    case Recording(c) => TransitionKeepsHands(op, c, FailureRequest(RetryableFailed));
    case Errored => MarkingKeepsHands(cfg, w, r);
    case _ =>
  }

  /** Whoever acts, the runtime changes only by a move or a rollback of that runner. */
  lemma ActKeepsHands(cfg: Config, w: World, a: Action)
    requires cfg.opId in w.db.operations
    ensures SameHands(Row(cfg, w), Row(cfg, Act(cfg, w, a)))
    ensures if a.Advance? && Moves(cfg, w, a, a.runner) then Act(cfg, w, a).db.runtime.active == cfg.target
            else if a.Advance? && Restores(cfg, w, a, a.runner) then
              && w.db.runtime.previous == Some(Act(cfg, w, a).db.runtime.active)
              && PcOf(Act(cfg, w, a), a.runner).Recording?
            else Act(cfg, w, a).db.runtime == w.db.runtime
  {
    match a
    case Advance(r, ch) =>
      PrepareKeepsHands(cfg, w, r, ch);
      if Gating(PcOf(w, r)) { GateKeepsHands(cfg, w, r, ch); }
      ConcludeKeepsHands(cfg, w, r, ch);
    case _ =>
  }

  predicate Ending(pc: Pc) {
    pc.Recording? || pc.Errored? || pc.Idle?
  }

  /** A runner's effects leave the other runners where they are. */
  lemma OthersStay(cfg: Config, w: World, r: string, other: string, ch: Choice)
    requires cfg.opId in w.db.operations && r != other
    ensures PcOf(AdvanceRunner(cfg, w, r, ch), other) == PcOf(w, other)
  {
    if Preparing(PcOf(w, r)) { PrepareLeavesOthers(cfg, w, r, other, ch); }
    else if Gating(PcOf(w, r)) { GateLeavesOthers(cfg, w, r, other, ch); }
    else { ConcludeLeavesOthers(cfg, w, r, other, ch); }
  }

  lemma PrepareLeavesOthers(cfg: Config, w: World, r: string, other: string, ch: Choice)
    requires cfg.opId in w.db.operations && r != other
    ensures PcOf(Prepare(cfg, w, r, ch), other) == PcOf(w, other)
  {
  }

  lemma GateLeavesOthers(cfg: Config, w: World, r: string, other: string, ch: Choice)
    requires cfg.opId in w.db.operations && r != other
    ensures PcOf(Gate(cfg, w, r, ch), other) == PcOf(w, other)
  {
  }

  lemma ConcludeLeavesOthers(cfg: Config, w: World, r: string, other: string, ch: Choice)
    requires cfg.opId in w.db.operations && r != other
    ensures PcOf(Conclude(cfg, w, r, ch), other) == PcOf(w, other)
  {
  }

  lemma OwnEnding(cfg: Config, w: World, r: string, ch: Choice)
    requires cfg.opId in w.db.operations && Ending(PcOf(w, r))
    ensures Ending(PcOf(AdvanceRunner(cfg, w, r, ch), r))
  {
  }

  /** After recording a failure a runner does nothing more under its claim. */
  lemma EndingStays(cfg: Config, w: World, a: Action, r: string)
    requires cfg.opId in w.db.operations && Ending(PcOf(w, r))
    ensures Row(cfg, Act(cfg, w, a)).fence == Row(cfg, w).fence ==> Ending(PcOf(Act(cfg, w, a), r))
    ensures !Moves(cfg, w, a, r) && !Restores(cfg, w, a, r)
  {
    match a
    case Advance(other, ch) => if other == r { OwnEnding(cfg, w, r, ch); } else { OthersStay(cfg, w, other, r, ch); }
    case Take(other, token) =>
    case _ =>
  }

  /** Who moves or restores owns the row, so while `r` holds its claim it is `r`. */
  lemma OnlyTheOwner(cfg: Config, w: World, a: Action, r: string)
    requires Inv(cfg, w) && Holder(w, Row(cfg, w).fence, r)
    requires a.Advance? && (Moves(cfg, w, a, a.runner) || Restores(cfg, w, a, a.runner))
    ensures a.runner == r
    ensures w.db.runtime.active == if Moves(cfg, w, a, r) then cfg.source else cfg.target
    ensures Restores(cfg, w, a, r) ==> w.db.runtime.previous == Some(cfg.source)
  {
    assert RunnerOk(cfg, w, a.runner);
  }

  // ---------------------------------------------------------------------------
  // A whole attempt
  // ---------------------------------------------------------------------------

  /** The runtime during the attempt of `r` under fence `fence`: `moved` and `restored` say what
      it has done so far, `atTarget` where it started. */
  ghost predicate Tracks(cfg: Config, w: World, r: string, fence: nat, atTarget: bool, moved: bool, restored: bool)
    requires cfg.opId in w.db.operations
  {
    var op := Row(cfg, w);
    && op.fence >= fence
    && (op.fence == fence ==>
          && Holder(w, fence, r)
          && (w.db.runtime.active == cfg.target <==> (atTarget || moved) && !restored)
          && (restored ==> Ending(PcOf(w, r))))
  }

  lemma HoldersStay(cfg: Config, w: World, a: Action, fence: nat, r: string)
    requires cfg.opId in w.db.operations && fence <= Row(cfg, w).fence && Holder(w, fence, r)
    ensures Holder(Act(cfg, w, a), fence, r)
  {
  }

  lemma AttemptStep(
      cfg: Config, w: World, a: Action, r: string, fence: nat, atTarget: bool, moved: bool, restored: bool)
    requires Inv(cfg, w) && Tracks(cfg, w, r, fence, atTarget, moved, restored)
    ensures Tracks(cfg, Act(cfg, w, a), r, fence, atTarget,
                   moved || Moves(cfg, w, a, r), restored || Restores(cfg, w, a, r))
  {
    ActKeepsHands(cfg, w, a);
    if Row(cfg, Act(cfg, w, a)).fence == fence {
      HoldersStay(cfg, w, a, fence, r);
      if restored { EndingStays(cfg, w, a, r); }
      if a.Advance? && (Moves(cfg, w, a, a.runner) || Restores(cfg, w, a, a.runner)) { OnlyTheOwner(cfg, w, a, r); }
    }
  }

  lemma {:induction false} AttemptTracks(
      cfg: Config, w: World, r: string, fence: nat, atTarget: bool, body: seq<Action>)
    requires Inv(cfg, w) && Tracks(cfg, w, r, fence, atTarget, false, false)
    ensures Tracks(cfg, Cutover.Run(cfg, w, body), r, fence, atTarget,
                   Moved(cfg, w, r, body), Restored(cfg, w, r, body))
  {
    if body != [] {
      var init := body[..|body| - 1];
      AttemptTracks(cfg, w, r, fence, atTarget, init);
      RunKeepsInv(cfg, w, init);
      AttemptStep(cfg, Cutover.Run(cfg, w, init), body[|body| - 1], r, fence, atTarget,
                  Moved(cfg, w, r, init), Restored(cfg, w, r, init));
    }
  }

  /** Every attempt of every run, whatever other runners and operators do meanwhile: until the
      next claim, and so in particular when the attempt has ended RETRYABLE_FAILED, the target
      is active if and only if it was active at the claim or the attempt moved the runtime, and
      the attempt did not roll back.  The parts of the condition are the guards of the two
      transactions that change the runtime row. */
  lemma FailsAtTargetIff(cfg: Config, w: World, before: seq<Action>, r: string, token: string, body: seq<Action>)
    requires Init(cfg, w)
    requires PcOf(Cutover.Run(cfg, w, before), r).Idle?
    requires TakeClaim(Row(cfg, Cutover.Run(cfg, w, before)), cfg.name(r), token).Success?
    ensures var start := Cutover.Run(cfg, w, before);
            var claimed := Act(cfg, start, Take(r, token));
            var end := Cutover.Run(cfg, claimed, body);
            Row(cfg, end).fence == Row(cfg, claimed).fence ==>
              (end.db.runtime.active == cfg.target <==>
                 && (start.db.runtime.active == cfg.target || Moved(cfg, claimed, r, body))
                 && !Restored(cfg, claimed, r, body))
  {
    RunKeepsInv(cfg, w, before);
    var start := Cutover.Run(cfg, w, before);
    Step(cfg, start, Take(r, token));
    var claimed := Act(cfg, start, Take(r, token));
    AttemptTracks(cfg, claimed, r, Row(cfg, claimed).fence, start.db.runtime.active == cfg.target, body);
  }

  // ---------------------------------------------------------------------------
  // Both ways of failing at the target are reached
  // ---------------------------------------------------------------------------

  /** What the environment decides when everything goes well, over a snapshot of `ch.total`
      rows and under one identity of the target. */
  predicate Well(ch: Choice) {
    ch.ok && ch.finish && ch.completed == ch.total
  }

  const WELL := Choice(true, true, 0, 0, None, "")

  /** `k` effects of one runner, all going well. */
  function Play(cfg: Config, w: World, r: string, ch: Choice, k: nat): World
    requires cfg.opId in w.db.operations
    ensures cfg.opId in Play(cfg, w, r, ch, k).db.operations
  {
    if k == 0 then w else Act(cfg, Play(cfg, w, r, ch, k - 1), Advance(r, ch))
  }

  lemma {:induction false} PlayIsRun(cfg: Config, w: World, r: string, ch: Choice, k: nat)
    requires cfg.opId in w.db.operations
    ensures Play(cfg, w, r, ch, k) == Cutover.Run(cfg, w, seq(k, _ => Advance(r, ch)))
  {
    if k > 0 {
      var all := seq(k, _ => Advance(r, ch));
      assert all[..k - 1] == seq(k - 1, _ => Advance(r, ch));
      PlayIsRun(cfg, w, r, ch, k - 1);
    }
  }

  /** A new operation, its target not yet built. */
  ghost predicate Unstarted(cfg: Config, w: World) {
    && Init(cfg, w) && cfg.target != "legacy" && cfg.source != cfg.target
    && Row(cfg, w).completed == Row(cfg, w).total == 0
  }

  /** Where runner `r` stands under claim `c` after `k` effects of such an attempt. */
  predicate Standing(cfg: Config, w: World, r: string, c: Claim, ch: Choice, k: nat)
    requires cfg.opId in w.db.operations
  {
    var pc, src := PcOf(w, r), cfg.source;
    if k == 0 then pc == Holding(c, Row(cfg, w))
    else if k == 1 then pc == Preflighted(c, src)
    else if k == 2 then pc == SourceRecorded(c, src)
    else if k == 3 then pc == Prepared(c, src)
    else if k == 4 then pc == Replaying(c, src)
    else if k == 5 then pc == Activating(c, src, ch.total)
    else if k == 6 then pc == Renewed(c, src, ch.total)
    else if k == 7 then pc == Verified(c, src, ch.total)
    else if k == 8 then pc == Ready(c, src, ch.total)
    else if k == 9 then pc == Resolved(c, src, ch.total, w.db.runtime)
    else if k == 10 then pc == Cut(c, src, ch.total, w.db.runtime.fence)
    else pc == PostPassed(c, src, ch.total, w.db.runtime.fence)
  }

  predicate StateAfter(state: State, k: nat) {
    if k < 2 then state in {State.Claimed, Running}
    else if k < 5 then state == Running
    else if k < 8 then state == Verifying
    else state == ReadyToCutover
  }

  /** The target can be staged by this operation under the identity that `ch` carries. */
  predicate Stageable(cfg: Config, db: Db, ch: Choice) {
    cfg.target in db.generations ==>
      var g := db.generations[cfg.target];
      && g.lifecycle in {Staging, GenerationFailed}
      && g.createdBy == cfg.opId && g.manifestHash == ch.manifestHash && g.providerManifest == ch.providerManifest
  }

  /** The row has room for the progress that `ch` reports. */
  predicate Roomy(op: Operation, ch: Choice) {
    op.completed <= op.total && op.total in {0, ch.total}
  }

  /** The world after `k` effects of an attempt that went well so far. */
  predicate Reached(cfg: Config, w: World, r: string, c: Claim, ch: Choice, k: nat) {
    && cfg.opId in w.db.operations && cfg.target != "legacy" && cfg.source != cfg.target && Well(ch)
    && Standing(cfg, w, r, c, ch, k)
    && var op := Row(cfg, w);
       && Owns(op, c) && StateAfter(op.state, k)
       && (if k < 5 then Roomy(op, ch) else op.completed == op.total == ch.total)
       && (k < 10 ==> w.db.runtime.active == cfg.source && HasLifecycle(w.db, cfg.source, Active))
       && (k < 3 ==> Stageable(cfg, w.db, ch))
       && (3 <= k < 10 ==> HasLifecycle(w.db, cfg.target, Staging))
       && (4 <= k ==> op.target == Some(cfg.target))
       && (10 <= k ==> w.db.runtime.active == cfg.target)
  }

  /** A world in which runner `r` can claim the operation and start from the preparation. */
  ghost predicate Startable(cfg: Config, w: World, r: string, ch: Choice) {
    && cfg.opId in w.db.operations && cfg.target != "legacy" && cfg.source != cfg.target && Well(ch)
    && PcOf(w, r).Idle? && Roomy(Row(cfg, w), ch) && Stageable(cfg, w.db, ch)
    && (|| Row(cfg, w).state == Pending
        || (Row(cfg, w).state in {State.Claimed, Running} && !Row(cfg, w).leaseValid))
    && w.db.runtime.active == cfg.source && HasLifecycle(w.db, cfg.source, Active)
  }

  lemma ClaimReached(cfg: Config, w: World, r: string, token: string, ch: Choice)
    requires Startable(cfg, w, r, ch)
    ensures Reached(cfg, Act(cfg, w, Take(r, token)), r, Claim(cfg.name(r), token, Row(cfg, w).fence + 1), ch, 0)
  {
  }

  lemma UnstartedIsStartable(cfg: Config, w: World, r: string, ch: Choice)
    requires Unstarted(cfg, w) && Well(ch)
    ensures Startable(cfg, w, r, ch)
  {
  }

  lemma PreparedNext(cfg: Config, w: World, r: string, c: Claim, ch: Choice, k: nat)
    requires k < 2 && Reached(cfg, w, r, c, ch, k)
    ensures Reached(cfg, Act(cfg, w, Advance(r, ch)), r, c, ch, k + 1)
  {
  }

  lemma StagedNext(cfg: Config, w: World, r: string, c: Claim, ch: Choice)
    requires Reached(cfg, w, r, c, ch, 2)
    ensures Reached(cfg, Act(cfg, w, Advance(r, ch)), r, c, ch, 3)
  {
  }

  lemma RecordedNext(cfg: Config, w: World, r: string, c: Claim, ch: Choice)
    requires Reached(cfg, w, r, c, ch, 3)
    ensures Reached(cfg, Act(cfg, w, Advance(r, ch)), r, c, ch, 4)
  {
  }

  lemma ReplayedNext(cfg: Config, w: World, r: string, c: Claim, ch: Choice)
    requires Reached(cfg, w, r, c, ch, 4)
    ensures Reached(cfg, Act(cfg, w, Advance(r, ch)), r, c, ch, 5)
  {
  }

  lemma VerifiedNext(cfg: Config, w: World, r: string, c: Claim, ch: Choice, k: nat)
    requires 5 <= k < 7 && Reached(cfg, w, r, c, ch, k)
    ensures Reached(cfg, Act(cfg, w, Advance(r, ch)), r, c, ch, k + 1)
  {
  }

  lemma ReadyNext(cfg: Config, w: World, r: string, c: Claim, ch: Choice)
    requires Reached(cfg, w, r, c, ch, 7)
    ensures Reached(cfg, Act(cfg, w, Advance(r, ch)), r, c, ch, 8)
  {
  }

  lemma ResolvedNext(cfg: Config, w: World, r: string, c: Claim, ch: Choice)
    requires Reached(cfg, w, r, c, ch, 8)
    ensures Reached(cfg, Act(cfg, w, Advance(r, ch)), r, c, ch, 9)
  {
  }

  lemma MovedNext(cfg: Config, w: World, r: string, c: Claim, ch: Choice, k: nat)
    requires 9 <= k < 11 && Reached(cfg, w, r, c, ch, k)
    ensures Reached(cfg, Act(cfg, w, Advance(r, ch)), r, c, ch, k + 1)
  {
  }

  /** An attempt that goes well so far can go one effect further. */
  lemma ReachedNext(cfg: Config, w: World, r: string, c: Claim, ch: Choice, k: nat)
    requires k < 11 && Reached(cfg, w, r, c, ch, k)
    ensures Reached(cfg, Act(cfg, w, Advance(r, ch)), r, c, ch, k + 1)
  {
    if k < 2 { PreparedNext(cfg, w, r, c, ch, k); }
    else if k == 2 { StagedNext(cfg, w, r, c, ch); }
    else if k == 3 { RecordedNext(cfg, w, r, c, ch); }
    else if k == 4 { ReplayedNext(cfg, w, r, c, ch); }
    else if k < 7 { VerifiedNext(cfg, w, r, c, ch, k); }
    else if k == 7 { ReadyNext(cfg, w, r, c, ch); }
    else if k == 8 { ResolvedNext(cfg, w, r, c, ch); }
    else { MovedNext(cfg, w, r, c, ch, k); }
  }

  lemma PlayNext(cfg: Config, w: World, now: World, r: string, c: Claim, ch: Choice, k: nat)
    requires cfg.opId in w.db.operations && now == Play(cfg, w, r, ch, k)
    requires k < 11 && Reached(cfg, now, r, c, ch, k)
    ensures Reached(cfg, Play(cfg, w, r, ch, k + 1), r, c, ch, k + 1)
  {
    ReachedNext(cfg, now, r, c, ch, k);
    assert Play(cfg, w, r, ch, k + 1) == Act(cfg, now, Advance(r, ch));
  }

  lemma {:induction false} PlayReaches(cfg: Config, w: World, r: string, c: Claim, ch: Choice, k: nat)
    requires k <= 11 && Reached(cfg, w, r, c, ch, 0)
    ensures Reached(cfg, Play(cfg, w, r, ch, k), r, c, ch, k)
  {
    if k > 0 {
      PlayReaches(cfg, w, r, c, ch, k - 1);
      PlayNext(cfg, w, Play(cfg, w, r, ch, k - 1), r, c, ch, k - 1);
    }
  }

  lemma HandsNext(cfg: Config, first: Operation, now: World, a: Action)
    requires cfg.opId in now.db.operations && SameHands(first, Row(cfg, now))
    ensures SameHands(first, Row(cfg, Act(cfg, now, a)))
  {
    ActKeepsHands(cfg, now, a);
  }

  lemma {:induction false} PlayKeepsHands(cfg: Config, w: World, r: string, ch: Choice, k: nat)
    requires cfg.opId in w.db.operations
    ensures SameHands(Row(cfg, w), Row(cfg, Play(cfg, w, r, ch, k)))
  {
    if k > 0 {
      PlayKeepsHands(cfg, w, r, ch, k - 1);
      HandsNext(cfg, Row(cfg, w), Play(cfg, w, r, ch, k - 1), Advance(r, ch));
    }
  }

  /** Both verifications passed; then the publishing step raises outside the guarded part. */
  lemma FailToPublish(cfg: Config, w: World, r: string, c: Claim, ch: Choice)
    requires Reached(cfg, w, r, c, ch, 11) && c.runner == cfg.name(r) && Row(cfg, w).attempts < Row(cfg, w).retryLimit
    ensures var w' := Act(cfg, Act(cfg, w, Abort(r)), Advance(r, ch));
            Row(cfg, w').state == RetryableFailed && w'.db.runtime == w.db.runtime
  {
    var w1 := Act(cfg, w, Abort(r));
    assert PcOf(w1, r) == Errored && w1.db == w.db;
  }

  /** The actions of such an attempt. */
  function Publishing(r: string, token: string, ch: Choice): seq<Action> {
    [Take(r, token)] + seq(11, _ => Advance(r, ch)) + [Abort(r), Advance(r, ch)]
  }

  /** The world after such an attempt has passed its last verification. */
  lemma WholeAttempt(cfg: Config, w: World, r: string, token: string, ch: Choice) returns (w': World)
    requires Unstarted(cfg, w) && Well(ch)
    ensures w' == Cutover.Run(cfg, w, [Take(r, token)] + seq(11, _ => Advance(r, ch)))
    ensures Reached(cfg, w', r, Claim(cfg.name(r), token, Row(cfg, w).fence + 1), ch, 11)
    ensures Row(cfg, w').attempts == Row(cfg, w).attempts + 1 && Row(cfg, w').retryLimit == Row(cfg, w).retryLimit
  {
    var c := Claim(cfg.name(r), token, Row(cfg, w).fence + 1);
    var w0 := Act(cfg, w, Take(r, token));
    UnstartedIsStartable(cfg, w, r, ch);
    ClaimReached(cfg, w, r, token, ch);
    PlayReaches(cfg, w0, r, c, ch, 11);
    PlayKeepsHands(cfg, w0, r, ch, 11);
    w' := Play(cfg, w0, r, ch, 11);
    RunOne(cfg, w, Take(r, token));
    PlayIsRun(cfg, w0, r, ch, 11);
    Cutover.RunConcat(cfg, w, [Take(r, token)], seq(11, _ => Advance(r, ch)));
  }

  /** From every unstarted operation with retries left, whatever its size: a first attempt,
      never interrupted before, both of whose verifications passed, ends RETRYABLE_FAILED with
      the target active. */
  lemma FirstAttemptFailsAtTarget(cfg: Config, w: World, r: string, token: string, ch: Choice)
    requires Unstarted(cfg, w) && Well(ch) && Row(cfg, w).attempts + 1 < Row(cfg, w).retryLimit
    ensures var end := Cutover.Run(cfg, w, Publishing(r, token, ch));
            Row(cfg, end).state == RetryableFailed && end.db.runtime.active == cfg.target != cfg.source
  {
    var w1 := WholeAttempt(cfg, w, r, token, ch);
    Cutover.RunConcat(cfg, w, [Take(r, token)] + seq(11, _ => Advance(r, ch)), [Abort(r), Advance(r, ch)]);
    RunTwo(cfg, w1, Abort(r), Advance(r, ch));
    FailToPublish(cfg, w1, r, Claim(cfg.name(r), token, Row(cfg, w).fence + 1), ch);
  }

  lemma RunTwo(cfg: Config, w: World, a: Action, b: Action)
    requires cfg.opId in w.db.operations
    ensures Cutover.Run(cfg, w, [a, b]) == Act(cfg, Act(cfg, w, a), b)
  {
    RunOne(cfg, w, a);
    RunOne(cfg, Act(cfg, w, a), b);
    assert [a, b] == [a] + [b];
    Cutover.RunConcat(cfg, w, [a], [b]);
  }

  lemma RunOne(cfg: Config, w: World, a: Action)
    requires cfg.opId in w.db.operations
    ensures Cutover.Run(cfg, w, [a]) == Act(cfg, w, a)
  {
    assert [a][..0] == [];
    assert Cutover.Run(cfg, w, []) == w;
  }

  /** One concrete operation to which this applies. */
  lemma AnUnstartedOperation() returns (cfg: Config, w: World)
    ensures Unstarted(cfg, w) && Row(cfg, w).attempts + 1 < Row(cfg, w).retryLimit
  {
    var row := Operation(Pending, None, None, 0, false, 0, 3, 0, 0, None, None);
    var db := Db(map["g" := Generation(Active, "o", None, "")], Runtime("g", None, 0), map["o" := row]);
    cfg, w := Config("o", "g", "h", true, r => r), World(db, map[], [], map[]);
    assert "h" != "g" && "h" != "legacy" by { assert "h"[0] != "g"[0] && |"h"| != |"legacy"|; }
  }

  // ---------------------------------------------------------------------------
  // Recovered attempts
  // ---------------------------------------------------------------------------

  /** Whoever reached verification announced and did all of its work, and a retryable failure has
      retries left. */
  predicate Whole(op: Operation) {
    && (op.state in {Verifying, ReadyToCutover, Completed} ==> op.completed == op.total)
    && (op.state == RetryableFailed ==> op.attempts < op.retryLimit)
  }

  lemma TransitionKeepsWhole(op: Operation, c: Claim, q: Request)
    ensures Transition(op, c, q).Success? ==> Whole(Transition(op, c, q).value)
  {
  }

  lemma PrepareKeepsWhole(cfg: Config, w: World, r: string, ch: Choice)
    requires cfg.opId in w.db.operations && Whole(Row(cfg, w))
    ensures Whole(Row(cfg, Prepare(cfg, w, r, ch)))
  {
    var op := Row(cfg, w);
    match PcOf(w, r)
    case Preflighted(c, src) => TransitionKeepsWhole(op, c, Request(Running, None, Some(src), None, false));
    case Prepared(c, src) => TransitionKeepsWhole(op, c, Request(Running, None, None, Some(cfg.target), false));
    case Replaying(c, src) =>
      TransitionKeepsWhole(op, c, Request(Verifying, Some((ch.total, ch.total)), None, None, false));
      TransitionKeepsWhole(op, c, Request(Running, Some((ch.completed, ch.total)), None, None, false));
    case _ =>
  }

  lemma GateKeepsWhole(cfg: Config, w: World, r: string, ch: Choice)
    requires cfg.opId in w.db.operations && Whole(Row(cfg, w))
    ensures Whole(Row(cfg, Gate(cfg, w, r, ch)))
  {
    if PcOf(w, r).Verified? {
      var (c, total) := (PcOf(w, r).c, PcOf(w, r).total);
      TransitionKeepsWhole(Row(cfg, w), c, Request(ReadyToCutover, Some((total, total)), None, None, false));
    }
  }

  lemma ConcludeKeepsWhole(cfg: Config, w: World, r: string, ch: Choice)
    requires cfg.opId in w.db.operations && Whole(Row(cfg, w))
    ensures Whole(Row(cfg, Conclude(cfg, w, r, ch)))
  {
    if PcOf(w, r).Published? {
      var (c, total) := (PcOf(w, r).c, PcOf(w, r).total);
      TransitionKeepsWhole(Row(cfg, w), c, Request(Completed, Some((total, total)), None, None, false));
    }
  }

  lemma AdvanceKeepsWhole(cfg: Config, w: World, r: string, ch: Choice)
    requires cfg.opId in w.db.operations && Whole(Row(cfg, w))
    ensures Whole(Row(cfg, Act(cfg, w, Advance(r, ch))))
  {
    if Preparing(PcOf(w, r)) { PrepareKeepsWhole(cfg, w, r, ch); }
    else if Gating(PcOf(w, r)) { GateKeepsWhole(cfg, w, r, ch); }
    else { ConcludeKeepsWhole(cfg, w, r, ch); }
  }

  lemma ActKeepsWhole(cfg: Config, w: World, a: Action)
    requires cfg.opId in w.db.operations && Whole(Row(cfg, w))
    ensures Whole(Row(cfg, Act(cfg, w, a)))
  {
    if a.Advance? { AdvanceKeepsWhole(cfg, w, a.runner, a.choice); }
  }

  lemma {:induction false} ReachedIsWhole(cfg: Config, w: World, actions: seq<Action>)
    requires cfg.opId in w.db.operations && Whole(Row(cfg, w))
    ensures Whole(Row(cfg, Cutover.Run(cfg, w, actions)))
  {
    if actions != [] {
      var init, a := actions[..|actions| - 1], actions[|actions| - 1];
      ReachedIsWhole(cfg, w, init);
      ActKeepsWhole(cfg, Cutover.Run(cfg, w, init), a);
    }
  }

  /** A cutover that was cut short and that a new runner may claim. */
  ghost predicate Interrupted(cfg: Config, w: World, r: string) {
    && Inv(cfg, w) && Whole(Row(cfg, w)) && PcOf(w, r).Idle?
    && Row(cfg, w).state == ReadyToCutover && !Row(cfg, w).leaseValid
  }

  /** The actions of a first attempt that goes well, and then dies and loses its lease. */
  function CuttingShort(r: string, token: string, ch: Choice): seq<Action> {
    [Take(r, token)] + seq(11, _ => Advance(r, ch)) + [Crash(r), Action.Lapse]
  }

  /** From every unstarted operation, with or without the graph, such a run ends with the target
      active and open to a new runner. */
  lemma InterruptionIsReached(cfg: Config, w: World, r: string, token: string, ch: Choice)
    requires Unstarted(cfg, w) && Well(ch)
    ensures var end := Cutover.Run(cfg, w, CuttingShort(r, token, ch));
            && Interrupted(cfg, end, r) && end.db.runtime.active == cfg.target != cfg.source
            && Row(cfg, end).attempts == Row(cfg, w).attempts + 1
            && Row(cfg, end).retryLimit == Row(cfg, w).retryLimit
  {
    var c := Claim(cfg.name(r), token, Row(cfg, w).fence + 1);
    var w1 := WholeAttempt(cfg, w, r, token, ch);
    Cutover.RunConcat(cfg, w, [Take(r, token)] + seq(11, _ => Advance(r, ch)), [Crash(r), Action.Lapse]);
    RunTwo(cfg, w1, Crash(r), Action.Lapse);
    ReachedInterruption(cfg, w, CuttingShort(r, token, ch), r);
  }

  /** Every cutover that is cut short in any run is one. */
  lemma ReachedInterruption(cfg: Config, w: World, actions: seq<Action>, r: string)
    requires Init(cfg, w)
    requires var now := Cutover.Run(cfg, w, actions);
             PcOf(now, r).Idle? && Row(cfg, now).state == ReadyToCutover && !Row(cfg, now).leaseValid
    ensures Interrupted(cfg, Cutover.Run(cfg, w, actions), r)
  {
    RunKeepsInv(cfg, w, actions);
    ReachedIsWhole(cfg, w, actions);
  }

  /** A recovered runner goes on exactly when the graph is enabled; otherwise it is refused and
      marks the operation failed, wherever the runtime stands. */
  lemma RecoveryResumesIff(cfg: Config, w: World, r: string, token: string, ch: Choice)
    requires Interrupted(cfg, w, r)
    ensures var resumed := Act(cfg, Act(cfg, w, Take(r, token)), Advance(r, ch));
            && PcOf(resumed, r).Activating? == cfg.graphEnabled
            && (!cfg.graphEnabled ==>
                  var failed := Act(cfg, resumed, Advance(r, ch));
                  && Failed(Row(cfg, failed).state) && failed.db.runtime == w.db.runtime
                  && (Row(cfg, failed).state == FinalFailed <==> Row(cfg, w).attempts + 1 >= Row(cfg, w).retryLimit))
  {
    var row := TakeClaim(Row(cfg, w), cfg.name(r), token).value;
    var c := Claim(cfg.name(r), token, row.fence);
    var claimed := Act(cfg, w, Take(r, token));
    assert PcOf(claimed, r) == Holding(c, row) && Row(cfg, claimed) == row;
    assert Resumable(cfg, w.db.runtime, row) <==> cfg.graphEnabled;
    var resumed := Act(cfg, claimed, Advance(r, ch));
    if !cfg.graphEnabled {
      assert PcOf(resumed, r) == Errored && Row(cfg, resumed) == row && resumed.db.runtime == w.db.runtime;
      MarkOwn(cfg, resumed, r, c, ch);
    }
  }

  lemma MarkOwn(cfg: Config, w: World, r: string, c: Claim, ch: Choice)
    requires cfg.opId in w.db.operations && PcOf(w, r) == Errored && c.runner == cfg.name(r) && Owns(Row(cfg, w), c)
    requires Row(cfg, w).state == ReadyToCutover && Row(cfg, w).completed == Row(cfg, w).total
    ensures var failed := Act(cfg, w, Advance(r, ch));
            && Failed(Row(cfg, failed).state) && failed.db.runtime == w.db.runtime
            && (Row(cfg, failed).state == FinalFailed <==> Row(cfg, w).attempts >= Row(cfg, w).retryLimit)
  {
  }

  /** From a claimed recovery that is stopped before its first verification. */
  lemma StoppedRecovery(cfg: Config, w: World, r: string, c: Claim, ch: Choice)
    requires cfg.opId in w.db.operations && PcOf(w, r).Activating? && PcOf(w, r).c == c && !ch.ok
    requires var op := Row(cfg, w); op.state == ReadyToCutover && Owns(op, c) && op.attempts < op.retryLimit
    requires Row(cfg, w).completed == Row(cfg, w).total
    ensures var failed := Act(cfg, Act(cfg, w, Advance(r, ch)), Advance(r, ch));
            Row(cfg, failed).state == RetryableFailed && failed.db.runtime == w.db.runtime
  {
    var stopped := Act(cfg, w, Advance(r, ch));
    assert PcOf(stopped, r) == Recording(c) && Row(cfg, stopped) == Row(cfg, w);
  }

  /** From a claimed recovery whose first verification fails. */
  lemma UnverifiedRecovery(cfg: Config, w: World, r: string, c: Claim, ch: Choice)
    requires cfg.opId in w.db.operations && PcOf(w, r).Activating? && PcOf(w, r).c == c && !ch.ok
    requires var op := Row(cfg, w); op.state == ReadyToCutover && Owns(op, c) && op.attempts < op.retryLimit
    requires Row(cfg, w).completed == Row(cfg, w).total
    ensures var failed := Act(cfg, Act(cfg, Act(cfg, w, Advance(r, WELL)), Advance(r, ch)), Advance(r, ch));
            Row(cfg, failed).state == RetryableFailed && failed.db.runtime == w.db.runtime
  {
    var renewed := Act(cfg, w, Advance(r, WELL));
    assert PcOf(renewed, r).Renewed? && PcOf(renewed, r).c == c && Row(cfg, renewed) == Row(cfg, w);
    var unverified := Act(cfg, renewed, Advance(r, ch));
    assert PcOf(unverified, r) == Recording(c) && Row(cfg, unverified) == Row(cfg, w);
  }

  /** In every world whose cutover was cut short with the target active, a recovered runner that
      is stopped before its first verification, and one whose first verification fails, records
      RETRYABLE_FAILED with the target still active. */
  lemma RecoveryFailureKeepsTarget(cfg: Config, w: World, r: string, token: string, ch: Choice)
    requires Interrupted(cfg, w, r) && cfg.graphEnabled && !ch.ok
    requires w.db.runtime.active == cfg.target
    requires Row(cfg, w).attempts + 1 < Row(cfg, w).retryLimit
    ensures var resumed := Act(cfg, Act(cfg, w, Take(r, token)), Advance(r, ch));
            var stopped := Act(cfg, Act(cfg, resumed, Advance(r, ch)), Advance(r, ch));
            var renewed := Act(cfg, resumed, Advance(r, WELL));
            var unverified := Act(cfg, Act(cfg, renewed, Advance(r, ch)), Advance(r, ch));
            && Row(cfg, stopped).state == Row(cfg, unverified).state == RetryableFailed
            && stopped.db.runtime.active == unverified.db.runtime.active == cfg.target != cfg.source
  {
    var row := TakeClaim(Row(cfg, w), cfg.name(r), token).value;
    var c := Claim(cfg.name(r), token, row.fence);
    var claimed := Act(cfg, w, Take(r, token));
    RecoveryResumesIff(cfg, w, r, token, ch);
    assert PcOf(claimed, r) == Holding(c, row) && Row(cfg, claimed) == row;
    var resumed := Act(cfg, claimed, Advance(r, ch));
    assert PcOf(resumed, r).Activating? && PcOf(resumed, r).c == c && Row(cfg, resumed) == row;
    assert resumed.db.runtime == w.db.runtime;
    StoppedRecovery(cfg, resumed, r, c, ch);
    UnverifiedRecovery(cfg, resumed, r, c, ch);
  }

  // ---------------------------------------------------------------------------
  // How attempts end
  // ---------------------------------------------------------------------------

  /** Claim `c` of runner `r` is good and the row can be failed under it. */
  predicate Failable(cfg: Config, w: World, r: string, c: Claim) {
    && cfg.opId in w.db.operations && c.runner == cfg.name(r)
    && var op := Row(cfg, w); Owns(op, c) && Executing(op.state) && op.completed <= op.total
  }

  /** The state in which an attempt of that row fails. */
  function FailureOf(op: Operation): State {
    if op.attempts < op.retryLimit then RetryableFailed else FinalFailed
  }

  /** The row has failed, its claim is gone, the runner too, and the runtime is as it was. */
  predicate EndedFailed(cfg: Config, w: World, end: World, r: string)
    requires cfg.opId in w.db.operations && cfg.opId in end.db.operations
  {
    && Row(cfg, end).state == FailureOf(Row(cfg, w)) && PcOf(end, r) == Idle
    && Row(cfg, end).claimedBy.None? && Row(cfg, end).claimToken.None? && !Row(cfg, end).leaseValid
    && end.db.runtime == w.db.runtime && end.db.generations == w.db.generations
  }

  /** The outer handler fails what its runner owns. */
  lemma HandlerEnds(cfg: Config, w: World, r: string, c: Claim, ch: Choice)
    requires Failable(cfg, w, r, c) && PcOf(w, r) == Errored
    ensures EndedFailed(cfg, w, Act(cfg, w, Advance(r, ch)), r)
  {
  }

  lemma RecordedEnds(cfg: Config, w: World, r: string, c: Claim, ch: Choice, ch': Choice)
    requires Failable(cfg, w, r, c) && PcOf(w, r) == Recording(c) && Row(cfg, w).attempts < Row(cfg, w).retryLimit
    ensures EndedFailed(cfg, w, Act(cfg, Act(cfg, w, Advance(r, ch)), Advance(r, ch')), r)
  {
    var recorded := Act(cfg, w, Advance(r, ch));
    assert PcOf(recorded, r) == Errored && Row(cfg, recorded).state == RetryableFailed;
  }

  /** Recording a failure, and then the handler: whichever of them may, fails the row. */
  lemma RecordingEnds(cfg: Config, w: World, r: string, c: Claim, ch: Choice, ch': Choice)
    requires Failable(cfg, w, r, c) && PcOf(w, r) == Recording(c)
    ensures EndedFailed(cfg, w, Act(cfg, Act(cfg, w, Advance(r, ch)), Advance(r, ch')), r)
  {
    if Row(cfg, w).attempts < Row(cfg, w).retryLimit {
      RecordedEnds(cfg, w, r, c, ch, ch');
    } else {
      var recorded := Act(cfg, w, Advance(r, ch));
      assert PcOf(recorded, r) == Errored && recorded.db == w.db;
      HandlerEnds(cfg, recorded, r, c, ch');
    }
  }

  /** An attempt interrupted at any of its effects ends failed, with the runtime where it is. */
  lemma InterruptedAnywhere(cfg: Config, w: World, r: string, c: Claim, ch: Choice)
    requires Failable(cfg, w, r, c) && PcOf(w, r) != Idle
    ensures EndedFailed(cfg, w, Act(cfg, Act(cfg, w, Abort(r)), Advance(r, ch)), r)
  {
    var aborted := Act(cfg, w, Abort(r));
    assert PcOf(aborted, r) == Errored && aborted.db == w.db;
    HandlerEnds(cfg, aborted, r, c, ch);
  }

  /** An attempt that is stopped before, or fails, its first verification, or is stopped after it,
      ends failed, with the runtime where it is. */
  lemma UnverifiedEnds(cfg: Config, w: World, r: string, c: Claim, bad: Choice, ch: Choice, ch': Choice)
    requires Failable(cfg, w, r, c) && !bad.ok
    requires PcOf(w, r).Activating? || PcOf(w, r).Renewed? || PcOf(w, r).Verified?
    requires PcOf(w, r).c == c
    ensures EndedFailed(cfg, w, Act(cfg, Act(cfg, Act(cfg, w, Advance(r, bad)), Advance(r, ch)), Advance(r, ch')), r)
  {
    var stopped := Act(cfg, w, Advance(r, bad));
    assert PcOf(stopped, r) == Recording(c) && stopped.db == w.db;
    RecordingEnds(cfg, stopped, r, c, ch, ch');
  }

  /** What the world looks like after a failed post-cutover check: the source is active again, the
      target has failed, nothing is retained, and so has the operation. */
  predicate RolledBackAndFailed(cfg: Config, w: World, end: World, r: string)
    requires cfg.opId in w.db.operations && cfg.opId in end.db.operations
  {
    && Row(cfg, end).state == FailureOf(Row(cfg, w)) && PcOf(end, r) == Idle
    && end.db.runtime == Runtime(cfg.source, None, w.db.runtime.fence + 1)
    && HasLifecycle(end.db, cfg.source, Active) && HasLifecycle(end.db, cfg.target, GenerationFailed)
  }

  lemma PostCheckFails(cfg: Config, w: World, r: string, c: Claim, bad: Choice)
    requires Inv(cfg, w) && Failable(cfg, w, r, c) && PcOf(w, r).Cut? && PcOf(w, r).c == c && !bad.ok
    ensures var failed := Act(cfg, w, Advance(r, bad));
            && failed.db == w.db && PcOf(failed, r).PostFailed? && PcOf(failed, r).c == c
            && PcOf(failed, r).runtimeFence == w.db.runtime.fence
            && PointerOk(cfg, failed) && OperationOk(cfg, failed)
            && Row(cfg, failed).state == ReadyToCutover && failed.db.runtime.active == cfg.target
  {
    assert RunnerOk(cfg, w, r);
  }

  /** The post-cutover check fails: rollback, recording, handler. */
  lemma PostCheckEnds(cfg: Config, w: World, r: string, c: Claim, bad: Choice, a: Choice, b: Choice, d: Choice)
    requires Inv(cfg, w) && Failable(cfg, w, r, c) && PcOf(w, r).Cut? && PcOf(w, r).c == c && !bad.ok
    ensures var failed := Act(cfg, w, Advance(r, bad));
            var restored := Act(cfg, failed, Advance(r, a));
            RolledBackAndFailed(cfg, w, Act(cfg, Act(cfg, restored, Advance(r, b)), Advance(r, d)), r)
  {
    var failed := Act(cfg, w, Advance(r, bad));
    PostCheckFails(cfg, w, r, c, bad);
    assert Row(cfg, failed) == Row(cfg, w);
    RestoredWorld(cfg, failed, r, c, a);
    var restored := Act(cfg, failed, Advance(r, a));
    RecordingEnds(cfg, restored, r, c, b, d);
  }

  lemma RestoredWorld(cfg: Config, w: World, r: string, c: Claim, ch: Choice)
    requires PointerOk(cfg, w) && cfg.source != cfg.target && Failable(cfg, w, r, c)
    requires OperationOk(cfg, w) && Row(cfg, w).state == ReadyToCutover && w.db.runtime.active == cfg.target
    requires PcOf(w, r).PostFailed? && PcOf(w, r).c == c && PcOf(w, r).runtimeFence == w.db.runtime.fence
    ensures var restored := Act(cfg, w, Advance(r, ch));
            && PcOf(restored, r) == Recording(c) && Row(cfg, restored) == Row(cfg, w)
            && restored.db.runtime == Runtime(cfg.source, None, w.db.runtime.fence + 1)
            && HasLifecycle(restored.db, cfg.source, Active) && HasLifecycle(restored.db, cfg.target, GenerationFailed)
  {
    assert CanRollback(w.db, cfg.opId, c, cfg.target, w.db.runtime.fence);
  }

  // ---------------------------------------------------------------------------
  // Recoveries that go on
  // ---------------------------------------------------------------------------

  /** The runtime of a cutover that can be taken on. */
  predicate Takeable(cfg: Config, db: Db) {
    || (db.runtime.active == cfg.target && db.runtime.previous == Some(cfg.source))
    || (&& db.runtime.active == cfg.source
        && HasLifecycle(db, cfg.source, Active) && HasLifecycle(db, cfg.target, Staging))
  }

  /** Pointer and generations are the same. */
  predicate SameTables(a: Db, b: Db) {
    a.runtime == b.runtime && a.generations == b.generations
  }

  /** A recovered attempt after `k` effects that went well: it stands where a first one would four
      effects later, but for the first of them. */
  predicate Recovering(cfg: Config, w: World, r: string, c: Claim, ch: Choice, k: nat) {
    && cfg.opId in w.db.operations && cfg.source != cfg.target && cfg.graphEnabled && Well(ch)
    && c.runner == cfg.name(r) && Standing(cfg, w, r, c, ch, if k == 0 then 0 else k + 4)
    && var op, rt := Row(cfg, w), w.db.runtime;
       && Owns(op, c) && op.state == ReadyToCutover && op.completed == op.total == ch.total
       && op.source == Some(cfg.source) && op.target == Some(cfg.target)
       && (rt.active == cfg.source || (rt.active == cfg.target && rt.previous == Some(cfg.source)))
       && (k >= 6 ==> rt.active == cfg.target)
  }

  lemma RecoveryClaimed(cfg: Config, w: World, r: string, token: string, ch: Choice)
    requires Interrupted(cfg, w, r) && cfg.graphEnabled
    requires Well(ch) && ch.total == Row(cfg, w).total
    ensures var w' := Act(cfg, w, Take(r, token));
            && Recovering(cfg, w', r, Claim(cfg.name(r), token, Row(cfg, w).fence + 1), ch, 0)
            && SameTables(w.db, w'.db) && Row(cfg, w').retryLimit == Row(cfg, w).retryLimit
            && Row(cfg, w').attempts == Row(cfg, w).attempts + 1
  {
  }

  lemma ResumedNext(cfg: Config, w: World, r: string, c: Claim, ch: Choice)
    requires Recovering(cfg, w, r, c, ch, 0)
    ensures Recovering(cfg, Act(cfg, w, Advance(r, ch)), r, c, ch, 1)
    ensures SameTables(w.db, Act(cfg, w, Advance(r, ch)).db)
  {
  }

  lemma RecheckedNext(cfg: Config, w: World, r: string, c: Claim, ch: Choice, k: nat)
    requires 1 <= k < 3 && Recovering(cfg, w, r, c, ch, k)
    ensures Recovering(cfg, Act(cfg, w, Advance(r, ch)), r, c, ch, k + 1)
    ensures SameTables(w.db, Act(cfg, w, Advance(r, ch)).db)
  {
  }

  lemma ReadyAgain(cfg: Config, w: World, r: string, c: Claim, ch: Choice)
    requires Recovering(cfg, w, r, c, ch, 3)
    ensures Recovering(cfg, Act(cfg, w, Advance(r, ch)), r, c, ch, 4)
    ensures SameTables(w.db, Act(cfg, w, Advance(r, ch)).db)
  {
  }

  lemma ResolvedAgain(cfg: Config, w: World, r: string, c: Claim, ch: Choice)
    requires Recovering(cfg, w, r, c, ch, 4)
    ensures Recovering(cfg, Act(cfg, w, Advance(r, ch)), r, c, ch, 5)
    ensures SameTables(w.db, Act(cfg, w, Advance(r, ch)).db)
  {
  }

  /** Up to the pointer a recovery changes neither pointer nor generations. */
  lemma RecoveringNext(cfg: Config, w: World, r: string, c: Claim, ch: Choice, k: nat)
    requires k < 5 && Recovering(cfg, w, r, c, ch, k)
    ensures Recovering(cfg, Act(cfg, w, Advance(r, ch)), r, c, ch, k + 1)
    ensures SameTables(w.db, Act(cfg, w, Advance(r, ch)).db)
  {
    if k == 0 { ResumedNext(cfg, w, r, c, ch); }
    else if k < 3 { RecheckedNext(cfg, w, r, c, ch, k); }
    else if k == 3 { ReadyAgain(cfg, w, r, c, ch); }
    else { ResolvedAgain(cfg, w, r, c, ch); }
  }

  /** The pointer is moved, or found where it was moved to. */
  lemma MovedOrFound(cfg: Config, w: World, r: string, c: Claim, ch: Choice)
    requires Recovering(cfg, w, r, c, ch, 5) && Takeable(cfg, w.db)
    ensures Recovering(cfg, Act(cfg, w, Advance(r, ch)), r, c, ch, 6)
  {
  }

  /** Or it can be neither, and the handler takes over. */
  lemma NeitherMovedNorFound(cfg: Config, w: World, r: string, c: Claim, ch: Choice)
    requires Recovering(cfg, w, r, c, ch, 5) && !Takeable(cfg, w.db)
    ensures var w' := Act(cfg, w, Advance(r, ch)); PcOf(w', r) == Errored && w'.db == w.db
  {
  }

  lemma PostCheckedAgain(cfg: Config, w: World, r: string, c: Claim, ch: Choice)
    requires Recovering(cfg, w, r, c, ch, 6)
    ensures Recovering(cfg, Act(cfg, w, Advance(r, ch)), r, c, ch, 7)
  {
  }

  lemma RecoveringOnce(cfg: Config, w: World, now: World, r: string, c: Claim, ch: Choice, k: nat)
    requires cfg.opId in w.db.operations && now == Play(cfg, w, r, ch, k)
    requires k < 5 && Recovering(cfg, now, r, c, ch, k)
    ensures Recovering(cfg, Play(cfg, w, r, ch, k + 1), r, c, ch, k + 1)
    ensures SameTables(now.db, Play(cfg, w, r, ch, k + 1).db)
  {
    RecoveringNext(cfg, now, r, c, ch, k);
    assert Play(cfg, w, r, ch, k + 1) == Act(cfg, now, Advance(r, ch));
  }

  lemma {:induction false} PlayRecovers(cfg: Config, w: World, r: string, c: Claim, ch: Choice, k: nat)
    requires k <= 5 && Recovering(cfg, w, r, c, ch, 0)
    ensures Recovering(cfg, Play(cfg, w, r, ch, k), r, c, ch, k)
    ensures SameTables(w.db, Play(cfg, w, r, ch, k).db)
  {
    if k > 0 {
      PlayRecovers(cfg, w, r, c, ch, k - 1);
      RecoveringOnce(cfg, w, Play(cfg, w, r, ch, k - 1), r, c, ch, k - 1);
    }
  }

  /** ... up to the post-cutover check. */
  lemma PlayMoves(cfg: Config, w: World, r: string, c: Claim, ch: Choice)
    requires Recovering(cfg, w, r, c, ch, 0) && Takeable(cfg, w.db)
    ensures Recovering(cfg, Play(cfg, w, r, ch, 6), r, c, ch, 6)
  {
    PlayRecovers(cfg, w, r, c, ch, 5);
    var found := Play(cfg, w, r, ch, 5);
    MovedOrFound(cfg, found, r, c, ch);
    assert Play(cfg, w, r, ch, 6) == Act(cfg, found, Advance(r, ch));
  }

  /** The last two effects of any attempt whose verifications all passed. */
  lemma PublishedAndCompleted(cfg: Config, w: World, r: string, c: Claim, ch: Choice)
    requires cfg.opId in w.db.operations && PcOf(w, r).PostPassed? && PcOf(w, r).c == c
    requires PcOf(w, r).total == Row(cfg, w).completed == Row(cfg, w).total && w.db.runtime.active == cfg.target
    requires Owns(Row(cfg, w), c) && Row(cfg, w).state == ReadyToCutover
    ensures var end := Act(cfg, Act(cfg, w, Advance(r, ch)), Advance(r, ch));
            && Row(cfg, end).state == Completed && PcOf(end, r) == Idle && Row(cfg, end).claimedBy.None?
            && end.db.runtime == w.db.runtime && end.db.generations == w.db.generations
  {
    var published := Act(cfg, w, Advance(r, ch));
    assert PcOf(published, r).Published? && PcOf(published, r).c == c && published.db == w.db;
    assert PcOf(published, r).total == PcOf(w, r).total;
  }

  /** The actions of a recovery that goes well for `k` effects. */
  function Recovery(r: string, token: string, ch: Choice, k: nat): seq<Action> {
    [Take(r, token)] + seq(k, _ => Advance(r, ch))
  }

  lemma RecoveryIsPlay(cfg: Config, w: World, r: string, token: string, ch: Choice, k: nat)
    requires cfg.opId in w.db.operations
    ensures Cutover.Run(cfg, w, Recovery(r, token, ch, k)) == Play(cfg, Act(cfg, w, Take(r, token)), r, ch, k)
  {
    RunOne(cfg, w, Take(r, token));
    PlayIsRun(cfg, Act(cfg, w, Take(r, token)), r, ch, k);
    Cutover.RunConcat(cfg, w, [Take(r, token)], seq(k, _ => Advance(r, ch)));
  }

  lemma LastTwo(cfg: Config, w: World, r: string, ch: Choice, k: nat)
    requires cfg.opId in w.db.operations
    ensures Play(cfg, w, r, ch, k + 2) == Act(cfg, Act(cfg, Play(cfg, w, r, ch, k), Advance(r, ch)), Advance(r, ch))
  {
    assert Play(cfg, w, r, ch, k + 1) == Act(cfg, Play(cfg, w, r, ch, k), Advance(r, ch));
  }

  lemma PlayCompletes(cfg: Config, w: World, r: string, c: Claim, ch: Choice)
    requires Recovering(cfg, w, r, c, ch, 0) && Takeable(cfg, w.db)
    ensures var end := Play(cfg, w, r, ch, 9);
            && Row(cfg, end).state == Completed && PcOf(end, r) == Idle
            && end.db.runtime.active == cfg.target && end.db.runtime.previous == Some(cfg.source)
  {
    PlayMoves(cfg, w, r, c, ch);
    var moved := Play(cfg, w, r, ch, 6);
    PostCheckedAgain(cfg, moved, r, c, ch);
    var checked := Act(cfg, moved, Advance(r, ch));
    assert checked == Play(cfg, w, r, ch, 7);
    PublishedAndCompleted(cfg, checked, r, c, ch);
    LastTwo(cfg, w, r, ch, 7);
  }

  lemma PlayGivesUp(cfg: Config, w: World, r: string, c: Claim, ch: Choice)
    requires Recovering(cfg, w, r, c, ch, 0) && !Takeable(cfg, w.db)
    ensures var end := Play(cfg, w, r, ch, 9);
            && Failed(Row(cfg, end).state) && PcOf(end, r) == Idle && SameTables(w.db, end.db)
  {
    PlayRecovers(cfg, w, r, c, ch, 5);
    var found := Play(cfg, w, r, ch, 5);
    NeitherMovedNorFound(cfg, found, r, c, ch);
    var errored := Act(cfg, found, Advance(r, ch));
    HandlerEnds(cfg, errored, r, c, ch);
    LastTwo(cfg, w, r, ch, 5);
    IdleStays(cfg, Play(cfg, w, r, ch, 7), r, ch);
    LastTwo(cfg, w, r, ch, 7);
  }

  lemma IdleStays(cfg: Config, w: World, r: string, ch: Choice)
    requires cfg.opId in w.db.operations && PcOf(w, r) == Idle
    ensures Act(cfg, Act(cfg, w, Advance(r, ch)), Advance(r, ch)) == w
  {
    assert Act(cfg, w, Advance(r, ch)) == w;
  }

  /** From every interrupted cutover with the graph enabled, a new claim and nine effects that go
      well reach COMPLETED with the target active if and only if the pointer had been moved, or
      the target is still staged.  Otherwise a rollback had happened and its record had not: the
      operation fails, with the source active. */
  lemma RecoveryCompletesIff(cfg: Config, w: World, r: string, token: string, ch: Choice)
    requires Interrupted(cfg, w, r) && cfg.graphEnabled
    requires Well(ch) && ch.total == Row(cfg, w).total
    ensures var end := Cutover.Run(cfg, w, Recovery(r, token, ch, 9));
            if w.db.runtime.active == cfg.target || HasLifecycle(w.db, cfg.target, Staging) then
              && Row(cfg, end).state == Completed && PcOf(end, r) == Idle
              && end.db.runtime.active == cfg.target && end.db.runtime.previous == Some(cfg.source)
            else
              && Failed(Row(cfg, end).state) && PcOf(end, r) == Idle
              && end.db.runtime == w.db.runtime && end.db.runtime.active == cfg.source
  {
    var c := Claim(cfg.name(r), token, Row(cfg, w).fence + 1);
    var w0 := Act(cfg, w, Take(r, token));
    RecoveryClaimed(cfg, w, r, token, ch);
    RecoveryIsPlay(cfg, w, r, token, ch, 9);
    TakeableIff(cfg, w, r);
    assert Takeable(cfg, w0.db) == Takeable(cfg, w.db);
    if Takeable(cfg, w.db) { PlayCompletes(cfg, w0, r, c, ch); } else { PlayGivesUp(cfg, w0, r, c, ch); }
  }

  lemma TakeableIff(cfg: Config, w: World, r: string)
    requires Interrupted(cfg, w, r)
    ensures Takeable(cfg, w.db) <==> w.db.runtime.active == cfg.target || HasLifecycle(w.db, cfg.target, Staging)
    ensures w.db.runtime.active in {cfg.source, cfg.target}
  {
  }

  /** The actions of a recovery whose post-cutover check fails. */
  function FailingRecovery(r: string, token: string, ch: Choice, bad: Choice): seq<Action> {
    Recovery(r, token, ch, 6) + [Advance(r, bad), Advance(r, ch), Advance(r, ch), Advance(r, ch)]
  }

  lemma RunFour(cfg: Config, w: World, a: Action, b: Action, c: Action, d: Action)
    requires cfg.opId in w.db.operations
    ensures Cutover.Run(cfg, w, [a, b, c, d]) == Act(cfg, Act(cfg, Act(cfg, Act(cfg, w, a), b), c), d)
  {
    RunTwo(cfg, w, a, b);
    RunTwo(cfg, Cutover.Run(cfg, w, [a, b]), c, d);
    assert [a, b, c, d] == [a, b] + [c, d];
    Cutover.RunConcat(cfg, w, [a, b], [c, d]);
  }

  /** A recovery that passes its first verification and fails its last: the runtime goes back to
      the source, the target generation has failed, and so has the operation, retryably if an
      attempt is left. */
  lemma RecoveryRollsBack(cfg: Config, w: World, r: string, token: string, ch: Choice, bad: Choice)
    requires Interrupted(cfg, w, r) && cfg.graphEnabled && !bad.ok
    requires Well(ch) && ch.total == Row(cfg, w).total
    requires w.db.runtime.active == cfg.target || HasLifecycle(w.db, cfg.target, Staging)
    ensures var end := Cutover.Run(cfg, w, FailingRecovery(r, token, ch, bad));
            && end.db.runtime.active == cfg.source && end.db.runtime.previous.None?
            && HasLifecycle(end.db, cfg.source, Active) && HasLifecycle(end.db, cfg.target, GenerationFailed)
            && Row(cfg, end).state
               == if Row(cfg, w).attempts + 1 < Row(cfg, w).retryLimit then RetryableFailed else FinalFailed
  {
    var moved := RecoveryAtCheck(cfg, w, r, token, ch);
    var c := Claim(cfg.name(r), token, Row(cfg, w).fence + 1);
    PostCheckEnds(cfg, moved, r, c, bad, ch, ch, ch);
    RunFour(cfg, moved, Advance(r, bad), Advance(r, ch), Advance(r, ch), Advance(r, ch));
    Cutover.RunConcat(cfg, w, Recovery(r, token, ch, 6),
                      [Advance(r, bad), Advance(r, ch), Advance(r, ch), Advance(r, ch)]);
  }

  lemma PlayAtCheck(cfg: Config, w: World, r: string, token: string, ch: Choice)
    requires Interrupted(cfg, w, r) && cfg.graphEnabled && Takeable(cfg, w.db)
    requires Well(ch) && ch.total == Row(cfg, w).total
    ensures var c := Claim(cfg.name(r), token, Row(cfg, w).fence + 1);
            var moved := Play(cfg, Act(cfg, w, Take(r, token)), r, ch, 6);
            && Failable(cfg, moved, r, c) && PcOf(moved, r).Cut? && PcOf(moved, r).c == c
            && SameHands(Row(cfg, Act(cfg, w, Take(r, token))), Row(cfg, moved)) && Row(cfg, moved).fence == c.fence
  {
    var c := Claim(cfg.name(r), token, Row(cfg, w).fence + 1);
    RecoveryClaimed(cfg, w, r, token, ch);
    PlayMoves(cfg, Act(cfg, w, Take(r, token)), r, c, ch);
    PlayKeepsHands(cfg, Act(cfg, w, Take(r, token)), r, ch, 6);
  }

  lemma RecoveryAtCheck(cfg: Config, w: World, r: string, token: string, ch: Choice) returns (moved: World)
    requires Interrupted(cfg, w, r) && cfg.graphEnabled
    requires Well(ch) && ch.total == Row(cfg, w).total
    requires w.db.runtime.active == cfg.target || HasLifecycle(w.db, cfg.target, Staging)
    ensures moved == Cutover.Run(cfg, w, Recovery(r, token, ch, 6)) && Inv(cfg, moved)
    ensures var c := Claim(cfg.name(r), token, Row(cfg, w).fence + 1);
            Failable(cfg, moved, r, c) && PcOf(moved, r).Cut? && PcOf(moved, r).c == c
    ensures Row(cfg, moved).attempts == Row(cfg, w).attempts + 1 && Row(cfg, moved).retryLimit == Row(cfg, w).retryLimit
  {
    TakeableIff(cfg, w, r);
    PlayAtCheck(cfg, w, r, token, ch);
    RecoveryClaimed(cfg, w, r, token, ch);
    RunKeepsInv(cfg, w, Recovery(r, token, ch, 6));
    RecoveryIsPlay(cfg, w, r, token, ch, 6);
    moved := Cutover.Run(cfg, w, Recovery(r, token, ch, 6));
  }

  /** A process that died while VERIFYING leaves an operation that no new claim resumes: the
      claimant is refused and fails it. */
  lemma VerifyingIsNotResumed(cfg: Config, w: World, r: string, token: string, ch: Choice, ch': Choice)
    requires cfg.opId in w.db.operations && Whole(Row(cfg, w)) && PcOf(w, r) == Idle
    requires Row(cfg, w).state == Verifying && !Row(cfg, w).leaseValid
    ensures var claimed := Act(cfg, w, Take(r, token));
            EndedFailed(cfg, claimed, Act(cfg, Act(cfg, claimed, Advance(r, ch)), Advance(r, ch')), r)
    ensures SameTables(w.db, Act(cfg, w, Take(r, token)).db)
  {
    var claimed := Act(cfg, w, Take(r, token));
    var refused := Act(cfg, claimed, Advance(r, ch));
    assert PcOf(refused, r) == Errored && refused.db == claimed.db;
    HandlerEnds(cfg, refused, r, Claim(cfg.name(r), token, Row(cfg, w).fence + 1), ch');
  }

  // ---------------------------------------------------------------------------
  // Attempts that can no longer complete
  // ---------------------------------------------------------------------------

  /** The target is active, and the operation is neither verifying it nor done. */
  predicate Stranded(cfg: Config, w: World)
    requires cfg.opId in w.db.operations
  {
    && w.db.runtime.active == cfg.target
    && Row(cfg, w).state !in {Verifying, ReadyToCutover, Completed}
  }

  lemma StrandedPrepare(cfg: Config, w: World, r: string, ch: Choice)
    requires Inv(cfg, w) && Stranded(cfg, w) && Preparing(PcOf(w, r))
    ensures Stranded(cfg, Prepare(cfg, w, r, ch))
  {
    assert RunnerOk(cfg, w, r);
  }

  lemma StrandedGate(cfg: Config, w: World, r: string, ch: Choice)
    requires Inv(cfg, w) && Stranded(cfg, w) && Gating(PcOf(w, r))
    ensures Stranded(cfg, Gate(cfg, w, r, ch))
  {
    assert RunnerOk(cfg, w, r);
  }

  lemma StrandedConclude(cfg: Config, w: World, r: string, ch: Choice)
    requires Inv(cfg, w) && Stranded(cfg, w) && !Preparing(PcOf(w, r)) && !Gating(PcOf(w, r))
    ensures Stranded(cfg, Conclude(cfg, w, r, ch))
  {
    assert RunnerOk(cfg, w, r);
  }

  /** From there no action of any runner or operator leads away: a retry finds its own target
      active, which cannot be staged, and nothing rolls the runtime back. */
  lemma StrandedStays(cfg: Config, w: World, a: Action)
    requires Inv(cfg, w) && Stranded(cfg, w)
    ensures Stranded(cfg, Act(cfg, w, a))
  {
    if a.Advance? {
      if Preparing(PcOf(w, a.runner)) { StrandedPrepare(cfg, w, a.runner, a.choice); }
      else if Gating(PcOf(w, a.runner)) { StrandedGate(cfg, w, a.runner, a.choice); }
      else { StrandedConclude(cfg, w, a.runner, a.choice); }
    }
  }

  lemma RetryIsPreflighted(cfg: Config, w: World, r: string, token: string, ch: Choice)
    requires cfg.opId in w.db.operations && Row(cfg, w).completed <= Row(cfg, w).total
    requires w.db.runtime.active == cfg.target && Row(cfg, w).state == Pending && PcOf(w, r) == Idle
    ensures var claimed := Act(cfg, w, Take(r, token));
            var preflighted := Act(cfg, claimed, Advance(r, ch));
            var c := Claim(cfg.name(r), token, Row(cfg, w).fence + 1);
            && PcOf(preflighted, r) == Preflighted(c, cfg.target) && Failable(cfg, preflighted, r, c)
            && preflighted.db == claimed.db && SameTables(w.db, claimed.db) && Row(cfg, claimed).state == State.Claimed
  {
  }

  /** What a retry of a stranded operation does: preflight, the source's record, the refusal to
      stage the active target, the handler. */
  lemma StrandedRetryFails(cfg: Config, w: World, r: string, token: string, ch: Choice)
    requires Coherent(w.db) && cfg.opId in w.db.operations && Row(cfg, w).completed <= Row(cfg, w).total
    requires w.db.runtime.active == cfg.target && Row(cfg, w).state == Pending && PcOf(w, r) == Idle
    ensures var claimed := Act(cfg, w, Take(r, token));
            var refused := Act(cfg, Act(cfg, Act(cfg, claimed, Advance(r, ch)), Advance(r, ch)), Advance(r, ch));
            EndedFailed(cfg, claimed, Act(cfg, refused, Advance(r, ch)), r) && SameTables(w.db, claimed.db)
  {
    var claimed, c := Act(cfg, w, Take(r, token)), Claim(cfg.name(r), token, Row(cfg, w).fence + 1);
    RetryIsPreflighted(cfg, w, r, token, ch);
    StrandedEnds(cfg, claimed, Act(cfg, claimed, Advance(r, ch)), r, c, ch);
  }

  lemma StrandedEnds(cfg: Config, claimed: World, w: World, r: string, c: Claim, ch: Choice)
    requires Coherent(w.db) && Failable(cfg, w, r, c) && PcOf(w, r) == Preflighted(c, cfg.target)
    requires w.db.runtime.active == cfg.target && Row(cfg, w).state in {State.Claimed, Running} && claimed.db == w.db
    ensures var refused := Act(cfg, Act(cfg, w, Advance(r, ch)), Advance(r, ch));
            EndedFailed(cfg, claimed, Act(cfg, refused, Advance(r, ch)), r)
  {
    StagingIsRefused(cfg, w, r, c, ch);
    HandlerEnds(cfg, Act(cfg, Act(cfg, w, Advance(r, ch)), Advance(r, ch)), r, c, ch);
  }

  lemma StagingIsRefused(cfg: Config, w: World, r: string, c: Claim, ch: Choice)
    requires Coherent(w.db) && Failable(cfg, w, r, c) && PcOf(w, r) == Preflighted(c, cfg.target)
    requires w.db.runtime.active == cfg.target && Row(cfg, w).state in {State.Claimed, Running}
    ensures var refused := Act(cfg, Act(cfg, w, Advance(r, ch)), Advance(r, ch));
            && PcOf(refused, r) == Errored && Failable(cfg, refused, r, c) && SameTables(w.db, refused.db)
            && Row(cfg, refused).attempts == Row(cfg, w).attempts
            && Row(cfg, refused).retryLimit == Row(cfg, w).retryLimit
  {
    var recorded := Act(cfg, w, Advance(r, ch));
    assert PcOf(recorded, r) == SourceRecorded(c, cfg.target) && SameTables(w.db, recorded.db);
    assert Act(cfg, recorded, Advance(r, ch)).db == recorded.db;
  }

  /** An operation that failed with its target active never completes and never rolls back. */
  lemma {:induction false} StrandedForEver(cfg: Config, w: World, before: seq<Action>, after: seq<Action>)
    requires Init(cfg, w) && Stranded(cfg, Cutover.Run(cfg, w, before))
    ensures Stranded(cfg, Cutover.Run(cfg, w, before + after))
  {
    if after == [] {
      assert before + after == before;
    } else {
      var init, a := after[..|after| - 1], after[|after| - 1];
      assert (before + after)[..|before + after| - 1] == before + init;
      StrandedForEver(cfg, w, before, init);
      RunKeepsInv(cfg, w, before + init);
      StrandedStays(cfg, Cutover.Run(cfg, w, before + init), a);
    }
  }

  // ---------------------------------------------------------------------------
  // Attempts that can start again
  // ---------------------------------------------------------------------------

  /** Only this operation ever stages its target. */
  predicate OwnTarget(cfg: Config, db: Db) {
    cfg.target in db.generations ==> db.generations[cfg.target].createdBy == cfg.opId
  }

  lemma PrepareKeepsTarget(cfg: Config, w: World, r: string, ch: Choice)
    requires cfg.opId in w.db.operations && OwnTarget(cfg, w.db)
    ensures OwnTarget(cfg, Prepare(cfg, w, r, ch).db)
  {
  }

  lemma ActKeepsTarget(cfg: Config, w: World, a: Action)
    requires cfg.opId in w.db.operations && OwnTarget(cfg, w.db)
    ensures OwnTarget(cfg, Act(cfg, w, a).db)
  {
    if a.Advance? { PrepareKeepsTarget(cfg, w, a.runner, a.choice); }
  }

  predicate Restartable(s: State) {
    s in {Pending, RetryableFailed, State.Claimed, Running}
  }

  /** What all went well looks like for a target that may have been staged before. */
  function Again(cfg: Config, db: Db, n: nat): (ch: Choice)
    ensures Well(ch) && ch.total == n
  {
    if cfg.target in db.generations then
      Choice(true, true, n, n, db.generations[cfg.target].manifestHash, db.generations[cfg.target].providerManifest)
    else
      Choice(true, true, n, n, None, "")
  }

  /** How an operator or the passing of time makes the operation claimable. */
  function Reopening(s: State): seq<Action> {
    if s == Pending then [] else if s == RetryableFailed then [RetryOperation] else [Action.Lapse]
  }

  lemma Opened(cfg: Config, w: World, a: Action)
    requires cfg.opId in w.db.operations && Whole(Row(cfg, w)) && Restartable(Row(cfg, w).state)
    requires Reopening(Row(cfg, w).state) == [a]
    ensures var op := Row(cfg, Act(cfg, w, a));
            && op.completed == Row(cfg, w).completed && op.total == Row(cfg, w).total
            && (op.state == Pending || (op.state in {State.Claimed, Running} && !op.leaseValid))
    ensures Act(cfg, w, a).db.generations == w.db.generations && Act(cfg, w, a).db.runtime == w.db.runtime
    ensures Act(cfg, w, a).runners == w.runners
  {
  }

  /** While the source is active, a pending, claimed, running or retryable operation can be
      started again. */
  lemma Reopened(cfg: Config, w: World, r: string, n: nat)
    requires Inv(cfg, w) && Whole(Row(cfg, w)) && OwnTarget(cfg, w.db) && cfg.target != "legacy"
    requires Restartable(Row(cfg, w).state) && w.db.runtime.active == cfg.source
    requires Row(cfg, w).completed <= Row(cfg, w).total && Row(cfg, w).total in {0, n}
    ensures var died := Act(cfg, w, Crash(r));
            var w' := if Reopening(Row(cfg, w).state) == [] then died
                      else Act(cfg, died, Reopening(Row(cfg, w).state)[0]);
            Startable(cfg, w', r, Again(cfg, w.db, n))
  {
    var died, reopening := Act(cfg, w, Crash(r)), Reopening(Row(cfg, w).state);
    assert died.db == w.db && PcOf(died, r).Idle?;
    if cfg.target in w.db.generations { TargetIsStageable(cfg, w); }
    if reopening != [] {
      assert reopening == [reopening[0]];
      Opened(cfg, died, reopening[0]);
    }
  }

  lemma TargetIsStageable(cfg: Config, w: World)
    requires Inv(cfg, w) && w.db.runtime.active == cfg.source && cfg.target in w.db.generations
    ensures w.db.generations[cfg.target].lifecycle in {Staging, GenerationFailed}
  {
    assert Coherent(w.db);
  }
}
