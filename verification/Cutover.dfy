/** The rebuild runner and its parity-gated cutover as a step system: any number of
    runners, live or stale, take one durable effect at a time in any order, and any of
    them can crash, be interrupted or lose its lease between two effects.
    (mesa_memory/rebuild_runner.py, rebuild_preparation.py, rebuild_cutover.py) */
module Cutover {
  import opened Wrappers
  import opened Operations
  import opened Generations

  /** One operation: `source` is the generation active when it was submitted, `target`
      its own `rebuild-<operation id>`.  `name` gives the runner name under which a process
      claims; processes may share one. */
  datatype Config = Config(
    opId: string, source: string, target: string, graphEnabled: bool, name: string -> string)

  /** History, kept only to state when something happened. */
  datatype Event =
    | ParityPassed(claim: nat)
    | PointerMoved(claim: nat, runtimeFence: nat)
    | PostVerified(claim: nat, runtimeFence: nat)
    | PointerRestored(claim: nat, runtimeFence: nat)

  /** Where a runner process stands, with the volatile values it carries. */
  datatype Pc =
    | Idle
    | Holding(c: Claim, row: Operation)
    | Preflighted(c: Claim, src: string)
    | SourceRecorded(c: Claim, src: string)
    | Prepared(c: Claim, src: string)
    | Replaying(c: Claim, src: string)
    | Activating(c: Claim, src: string, total: nat)
    | Renewed(c: Claim, src: string, total: nat)
    | Verified(c: Claim, src: string, total: nat)
    | Ready(c: Claim, src: string, total: nat)
    | Resolved(c: Claim, src: string, total: nat, seen: Runtime)
    | Cut(c: Claim, src: string, total: nat, runtimeFence: nat)
    | PostPassed(c: Claim, src: string, total: nat, runtimeFence: nat)
    | Published(c: Claim, src: string, total: nat, runtimeFence: nat)
    | PostFailed(c: Claim, src: string, total: nat, runtimeFence: nat)
    | Recording(c: Claim)
    | Errored

  /** `log` and `holders`, which process made the claim with a fence, are history. */
  datatype World = World(db: Db, runners: map<string, Pc>, log: seq<Event>, holders: map<nat, string>)

  /** What the environment decides during one effect. */
  datatype Choice = Choice(
    ok: bool, finish: bool, completed: nat, total: nat, manifestHash: Option<string>, providerManifest: string)

  datatype Action =
    | Take(runner: string, token: string)
    | Advance(runner: string, choice: Choice)
    | Abort(runner: string)
    | Crash(runner: string)
    | Lapse
    | RetryOperation
    | CancelOperation

  function PcOf(w: World, r: string): Pc {
    if r in w.runners then w.runners[r] else Idle
  }

  function Row(cfg: Config, w: World): Operation
    requires cfg.opId in w.db.operations
  {
    w.db.operations[cfg.opId]
  }

  function Goto(w: World, r: string, pc: Pc): World {
    w.(runners := w.runners[r := pc])
  }

  function WithRow(cfg: Config, w: World, row: Operation): World {
    w.(db := w.db.(operations := w.db.operations[cfg.opId := row]))
  }

  function Held(w: World, fence: nat, r: string): World {
    w.(holders := w.holders[fence := r])
  }

  /** Run one operation transaction; an error reaches the runner's outer handler. */
  function Attempt(cfg: Config, w: World, r: string, res: Result<Operation, Operations.Error>, next: Pc): World {
    if res.Success? then Goto(WithRow(cfg, w, res.value), r, next) else Goto(w, r, Errored)
  }

  function Record(w: World, e: Event): World {
    w.(log := w.log + [e])
  }

  /** resume_cutover_preparation: the durable inputs of a cutover that a crash cut short.
      It rebuilds the generation row without its provider manifest, so the runner's graph
      setting must be the default one. */
  predicate Resumable(cfg: Config, rt: Runtime, row: Operation) {
    && row.source.Some?
    && row.target == Some(cfg.target)
    && (if rt.active == cfg.target then rt.previous == row.source else Some(rt.active) == row.source)
    && row.completed == row.total
    && cfg.graphEnabled
  }

  function FailureRequest(to: State): Request {
    Request(to, None, None, None, true)
  }

  /** From the claim to the end of the replay. */
  function Prepare(cfg: Config, w: World, r: string, ch: Choice): World
    requires cfg.opId in w.db.operations
  {
    var op := Row(cfg, w);
    match PcOf(w, r)
    case Holding(c, row) =>
      if row.state == ReadyToCutover then
        Goto(w, r, if Resumable(cfg, w.db.runtime, row) then Activating(c, row.source.value, row.total) else Errored)
      else if op.state in {Claimed, Running} && Owns(op, c) then
        Goto(w, r, Preflighted(c, w.db.runtime.active))
      else
        Goto(w, r, Errored)
    case Preflighted(c, src) =>
      Attempt(cfg, w, r, Transition(op, c, Request(Running, None, Some(src), None, false)), SourceRecorded(c, src))
    case SourceRecorded(c, src) =>
      var q := StagingRequest(cfg.opId, cfg.target, c, ch.manifestHash, ch.providerManifest);
      if CanStage(w.db, q) then Goto(w.(db := Staged(w.db, q)), r, Prepared(c, src)) else Goto(w, r, Errored)
    case Prepared(c, src) =>
      Attempt(cfg, w, r, Transition(op, c, Request(Running, None, None, Some(cfg.target), false)), Replaying(c, src))
    case Replaying(c, src) =>
      if ch.finish then
        Attempt(cfg, w, r, Transition(op, c, Request(Verifying, Some((ch.total, ch.total)), None, None, false)),
                Activating(c, src, ch.total))
      else
        Attempt(cfg, w, r, Transition(op, c, Request(Running, Some((ch.completed, ch.total)), None, None, false)),
                Replaying(c, src))
    case _ => w
  }

  /** ParityGatedActivator.activate up to the pointer movement. */
  function Gate(cfg: Config, w: World, r: string, ch: Choice): World
    requires cfg.opId in w.db.operations
  {
    var op := Row(cfg, w);
    match PcOf(w, r)
    case Activating(c, src, total) =>
      if ch.ok then Attempt(cfg, w, r, Renew(op, c), Renewed(c, src, total)) else Goto(w, r, Recording(c))
    case Renewed(c, src, total) =>
      if ch.ok then Goto(Record(w, ParityPassed(c.fence)), r, Verified(c, src, total)) else Goto(w, r, Recording(c))
    case Verified(c, src, total) =>
      if ch.ok then
        Attempt(cfg, w, r, Transition(op, c, Request(ReadyToCutover, Some((total, total)), None, None, false)),
                Ready(c, src, total))
      else
        Goto(w, r, Recording(c))
    case Ready(c, src, total) =>
      Goto(w, r, Resolved(c, src, total, w.db.runtime))
    case Resolved(c, src, total, seen) =>
      if seen.active == src then
        if CanActivate(w.db, cfg.opId, c, cfg.target, src, seen.fence) then
          var db := Activated(w.db, cfg.target);
          Goto(Record(w.(db := db), PointerMoved(c.fence, db.runtime.fence)), r, Cut(c, src, total, db.runtime.fence))
        else
          Goto(w, r, Errored)
      else if seen.active == cfg.target && seen.previous == Some(src) then
        Goto(w, r, Cut(c, src, total, seen.fence))
      else
        Goto(w, r, Errored)
    case _ => w
  }

  /** Post-cutover verification, rollback, completion and failure recording. */
  function Conclude(cfg: Config, w: World, r: string, ch: Choice): World
    requires cfg.opId in w.db.operations
  {
    var op := Row(cfg, w);
    match PcOf(w, r)
    case Cut(c, src, total, f) =>
      if ch.ok then Goto(Record(w, PostVerified(c.fence, f)), r, PostPassed(c, src, total, f))
      else Goto(w, r, PostFailed(c, src, total, f))
    case PostFailed(c, src, total, f) =>
      if CanRollback(w.db, cfg.opId, c, cfg.target, f) then
        var db := RolledBack(w.db);
        Goto(Record(w.(db := db), PointerRestored(c.fence, db.runtime.fence)), r, Recording(c))
      else
        Goto(w, r, Errored)
    case PostPassed(c, src, total, f) =>
      Goto(w, r, if w.db.runtime.active == cfg.target then Published(c, src, total, f) else Errored)
    case Published(c, src, total, f) =>
      Attempt(cfg, w, r, Transition(op, c, Request(Completed, Some((total, total)), None, None, false)), Idle)
    case Recording(c) =>
      Attempt(cfg, w, r, Transition(op, c, FailureRequest(RetryableFailed)), Errored)
    case Errored => Goto(MarkFailure(cfg, w, r), r, Idle)
    case _ => w
  }

  /** The outer handler re-reads the row and uses whatever claim it finds under its own name. */
  function MarkFailure(cfg: Config, w: World, r: string): World
    requires cfg.opId in w.db.operations
  {
    var op := Row(cfg, w);
    if !Final(op.state) && op.claimedBy == Some(cfg.name(r)) && op.claimToken.Some? then
      var to := if op.attempts >= op.retryLimit then FinalFailed else RetryableFailed;
      var res := Transition(op, Claim(cfg.name(r), op.claimToken.value, op.fence), FailureRequest(to));
      if res.Success? then WithRow(cfg, w, res.value) else w
    else
      w
  }

  predicate Preparing(pc: Pc) {
    pc.Holding? || pc.Preflighted? || pc.SourceRecorded? || pc.Prepared? || pc.Replaying?
  }

  predicate Gating(pc: Pc) {
    pc.Activating? || pc.Renewed? || pc.Verified? || pc.Ready? || pc.Resolved?
  }

  /** The next durable effect of runner `r`. */
  function AdvanceRunner(cfg: Config, w: World, r: string, ch: Choice): World
    requires cfg.opId in w.db.operations
  {
    if Preparing(PcOf(w, r)) then Prepare(cfg, w, r, ch)
    else if Gating(PcOf(w, r)) then Gate(cfg, w, r, ch)
    else Conclude(cfg, w, r, ch)
  }

  function Act(cfg: Config, w: World, a: Action): World
    requires cfg.opId in w.db.operations
    ensures cfg.opId in Act(cfg, w, a).db.operations
  {
    var op := Row(cfg, w);
    match a
    case Take(r, token) =>
      var res := TakeClaim(op, cfg.name(r), token);
      if PcOf(w, r) == Idle && res.Success? then
        Goto(WithRow(cfg, Held(w, res.value.fence, r), res.value), r,
             Holding(Claim(cfg.name(r), token, res.value.fence), res.value))
      else w
    case Advance(r, ch) => AdvanceRunner(cfg, w, r, ch)
    case Abort(r) => if PcOf(w, r) == Idle then w else Goto(w, r, Errored)
    case Crash(r) => Goto(w, r, Idle)
    case Lapse => WithRow(cfg, w, op.(leaseValid := false))
    case RetryOperation => if Retry(op).Success? then WithRow(cfg, w, Retry(op).value) else w
    case CancelOperation => if Cancel(op).Success? then WithRow(cfg, w, Cancel(op).value) else w
  }

  function Run(cfg: Config, w: World, actions: seq<Action>): (w': World)
    requires cfg.opId in w.db.operations
    ensures cfg.opId in w'.db.operations
  {
    if actions == [] then w
    else Act(cfg, Run(cfg, w, actions[..|actions| - 1]), actions[|actions| - 1])
  }

  /** What an operator can do: call off an operation that nobody is working on, and put one that
      failed with attempts left back to PENDING; either voids the claim and touches nothing else. */
  lemma OperatorsDecide(cfg: Config, w: World)
    requires cfg.opId in w.db.operations
    ensures var op := Row(cfg, w);
            && (Row(cfg, Act(cfg, w, CancelOperation)).state == Cancelled <==>
                  op.state in {Pending, RetryableFailed, Cancelled})
            && (Row(cfg, Act(cfg, w, RetryOperation)).state == Pending <==>
                  op.state == Pending || (op.state == RetryableFailed && op.attempts < op.retryLimit))
    ensures forall a | a in {CancelOperation, RetryOperation} ::
              var (op, done) := (Row(cfg, w), Act(cfg, w, a));
              || done == w
              || (Row(cfg, done) == op.(state := Row(cfg, done).state, claimedBy := None, claimToken := None,
                                        leaseValid := false)
                  && done == WithRow(cfg, w, Row(cfg, done)))
  {
  }

  /** In any world at all, a cut-short cutover is taken up again exactly when its checkpoint is
      whole: both generations recorded, the target its own, the replay complete, and the runtime
      at the recorded source or, one move further, at the target with that source retained. */
  lemma ResumesOnlyWhole(cfg: Config, w: World, r: string, ch: Choice)
    requires cfg.opId in w.db.operations && PcOf(w, r).Holding? && PcOf(w, r).row.state == ReadyToCutover
    ensures PcOf(Act(cfg, w, Advance(r, ch)), r).Activating? <==>
              var (row, runtime) := (PcOf(w, r).row, w.db.runtime);
              && row.source.Some? && row.target == Some(cfg.target) && row.completed == row.total
              && cfg.graphEnabled
              && (|| (runtime.active == cfg.target && runtime.previous == row.source)
                  || (runtime.active != cfg.target && runtime.active == row.source.value))
  {
  }

  /** A runner publishes only after its last verification passed, and while the runtime names
      the target. */
  lemma PublishesOnlyAtTarget(cfg: Config, w: World, r: string, ch: Choice)
    requires cfg.opId in w.db.operations && !PcOf(w, r).Published?
    ensures PcOf(Act(cfg, w, Advance(r, ch)), r).Published? <==>
              PcOf(w, r).PostPassed? && w.db.runtime.active == cfg.target
  {
    if PcOf(w, r).Idle? {
      assert Act(cfg, w, Advance(r, ch)) == w;
    } else if Preparing(PcOf(w, r)) {
      PreparingDoesNotPublish(cfg, w, r, ch);
    } else if Gating(PcOf(w, r)) {
      GatingDoesNotPublish(cfg, w, r, ch);
    } else {
      assert Act(cfg, w, Advance(r, ch)) == Conclude(cfg, w, r, ch);
    }
  }

  lemma PreparingDoesNotPublish(cfg: Config, w: World, r: string, ch: Choice)
    requires cfg.opId in w.db.operations && Preparing(PcOf(w, r))
    ensures !PcOf(Prepare(cfg, w, r, ch), r).Published?
  {
  }

  lemma GatingDoesNotPublish(cfg: Config, w: World, r: string, ch: Choice)
    requires cfg.opId in w.db.operations && Gating(PcOf(w, r))
    ensures !PcOf(Gate(cfg, w, r, ch), r).Published?
  {
  }

  // ---------------------------------------------------------------------------
  // What holds in every reachable world
  // ---------------------------------------------------------------------------

  predicate MovesPointer(e: Event) {
    e.PointerMoved? || e.PointerRestored?
  }

  /** The pointer has not moved since position `j` of the log. */
  ghost predicate QuietFrom(log: seq<Event>, j: int) {
    forall k | 0 <= k < |log| && j <= k :: !MovesPointer(log[k])
  }

  /** `e` happened, and the pointer has not moved since. */
  ghost predicate Fresh(log: seq<Event>, e: Event) {
    exists j :: 0 <= j < |log| && log[j] == e && QuietFrom(log, j)
  }

  /** Every move to the target was decided by a claim whose own parity check had passed
      with no pointer movement in between. */
  ghost predicate Gated(log: seq<Event>) {
    forall i | 0 <= i < |log| && log[i].PointerMoved? :: Fresh(log[..i], ParityPassed(log[i].claim))
  }

  /** The latest pointer movement was a move to the target. */
  ghost predicate LastMoved(log: seq<Event>) {
    exists i :: 0 <= i < |log| && log[i].PointerMoved? && QuietFrom(log, i + 1)
  }

  /** ... and it gave the pointer the fence `fence`. */
  ghost predicate MovedUnder(log: seq<Event>, fence: nat) {
    exists i :: 0 <= i < |log| && log[i].PointerMoved? && log[i].runtimeFence == fence && QuietFrom(log, i + 1)
  }

  ghost predicate OperationOk(cfg: Config, w: World)
    requires cfg.opId in w.db.operations
  {
    var op := Row(cfg, w);
    && op.claimedBy.Some? == op.claimToken.Some? == Executing(op.state)
    && (op.leaseValid ==> Executing(op.state))
    && (op.state in {Verifying, ReadyToCutover, Completed} ==>
          op.source == Some(cfg.source) && op.target == Some(cfg.target))
    && (op.state == Verifying ==> w.db.runtime.active == cfg.source && HasLifecycle(w.db, cfg.target, Staging))
    && (op.state == Completed ==>
          && w.db.runtime.active == cfg.target
          && exists claim :: Fresh(w.log, PostVerified(claim, w.db.runtime.fence)))
  }

  ghost predicate PointerOk(cfg: Config, w: World) {
    && Coherent(w.db)
    && w.db.runtime.active in {cfg.source, cfg.target}
    && (cfg.target in w.db.generations ==> !HasLifecycle(w.db, cfg.target, Retained))
    && (w.db.runtime.active == cfg.target ==> w.db.runtime.previous == Some(cfg.source))
    && (w.db.runtime.active == cfg.target <==> LastMoved(w.log))
    && (LastMoved(w.log) ==> MovedUnder(w.log, w.db.runtime.fence))
    && Gated(w.log)
  }

  predicate Current(op: Operation, c: Claim) {
    op.claimedBy == Some(c.runner) && op.claimToken == Some(c.token) && op.fence == c.fence
  }

  /** What a runner may rely on while the claim it carries is still the operation's. */
  ghost predicate Relies(cfg: Config, w: World, pc: Pc)
    requires cfg.opId in w.db.operations
  {
    var op, rt := Row(cfg, w), w.db.runtime;
    match pc
    case Holding(c, row) =>
      row.state == op.state && row.source == op.source
    case Preflighted(c, src) =>
      op.state in {Claimed, Running} && rt.active == src
    case SourceRecorded(c, src) =>
      op.state == Running && op.source == Some(src) && rt.active == src
    case Prepared(c, src) =>
      op.state == Running && op.source == Some(src) && rt.active == src && HasLifecycle(w.db, cfg.target, Staging)
    case Replaying(c, src) =>
      op.state == Running && op.source == Some(src) && rt.active == src && HasLifecycle(w.db, cfg.target, Staging)
      && op.target == Some(cfg.target)
    case Activating(c, src, _) => src == cfg.source && op.state in {Verifying, ReadyToCutover}
    case Renewed(c, src, _) => src == cfg.source && op.state in {Verifying, ReadyToCutover}
    case Verified(c, src, _) =>
      src == cfg.source && op.state in {Verifying, ReadyToCutover} && Fresh(w.log, ParityPassed(c.fence))
    case Ready(c, src, _) =>
      src == cfg.source && op.state == ReadyToCutover && Fresh(w.log, ParityPassed(c.fence))
    case Resolved(c, src, _, seen) =>
      src == cfg.source && op.state == ReadyToCutover && seen == rt && Fresh(w.log, ParityPassed(c.fence))
    case Cut(c, src, _, f) =>
      op.state == ReadyToCutover && rt.active == cfg.target && rt.fence == f
    case PostFailed(c, src, _, f) =>
      op.state == ReadyToCutover && rt.active == cfg.target && rt.fence == f
    case PostPassed(c, src, _, f) =>
      op.state == ReadyToCutover && rt.active == cfg.target && Fresh(w.log, PostVerified(c.fence, rt.fence))
    case Published(c, src, _, f) =>
      op.state == ReadyToCutover && rt.active == cfg.target && Fresh(w.log, PostVerified(c.fence, rt.fence))
    case _ => true
  }

  predicate HasClaim(pc: Pc) {
    !pc.Idle? && !pc.Errored?
  }

  predicate Holder(w: World, fence: nat, r: string) {
    fence in w.holders && w.holders[fence] == r
  }

  ghost predicate RunnerOk(cfg: Config, w: World, r: string)
    requires cfg.opId in w.db.operations
  {
    var pc := PcOf(w, r);
    HasClaim(pc) ==>
      && pc.c.runner == cfg.name(r)
      && Holder(w, pc.c.fence, r)
      && pc.c.fence <= Row(cfg, w).fence
      && (Current(Row(cfg, w), pc.c) ==> Relies(cfg, w, pc))
  }

  ghost predicate Inv(cfg: Config, w: World) {
    && cfg.opId in w.db.operations
    && cfg.source != cfg.target
    && PointerOk(cfg, w)
    && OperationOk(cfg, w)
    && forall r :: RunnerOk(cfg, w, r)
  }

  ghost predicate Init(cfg: Config, w: World) {
    && cfg.opId in w.db.operations
    && Row(cfg, w).state == Pending
    && Row(cfg, w).claimedBy.None? && Row(cfg, w).claimToken.None? && !Row(cfg, w).leaseValid
    && Coherent(w.db)
    && w.db.runtime.active == cfg.source
    && cfg.target !in w.db.generations
    && w.runners == map[] && w.log == [] && w.holders == map[]
  }

  // ---------------------------------------------------------------------------
  // One step
  // ---------------------------------------------------------------------------

  lemma FreshExtends(log: seq<Event>, e: Event, added: Event)
    requires !MovesPointer(added)
    ensures Fresh(log, e) ==> Fresh(log + [added], e)
    ensures Fresh(log + [added], added)
  {
    var next := log + [added];
    assert next[|log|] == added && QuietFrom(next, |log|);
    if Fresh(log, e) {
      var j :| 0 <= j < |log| && log[j] == e && QuietFrom(log, j);
      assert next[j] == e && QuietFrom(next, j);
    }
  }

  lemma LastMovedExtends(log: seq<Event>, fence: nat, added: Event)
    requires !MovesPointer(added)
    ensures LastMoved(log + [added]) <==> LastMoved(log)
    ensures MovedUnder(log, fence) ==> MovedUnder(log + [added], fence)
  {
    var next := log + [added];
    if i :| 0 <= i < |log| && log[i].PointerMoved? && QuietFrom(log, i + 1) {
      assert next[i] == log[i] && QuietFrom(next, i + 1);
    }
    if i :| 0 <= i < |log| && log[i].PointerMoved? && log[i].runtimeFence == fence && QuietFrom(log, i + 1) {
      assert next[i] == log[i] && QuietFrom(next, i + 1);
    }
    if i :| 0 <= i < |next| && next[i].PointerMoved? && QuietFrom(next, i + 1) {
      assert next[i] == log[i];
      forall k | 0 <= k < |log| && i + 1 <= k ensures !MovesPointer(log[k]) { assert next[k] == log[k]; }
      assert QuietFrom(log, i + 1);
    }
  }

  lemma GatedExtends(log: seq<Event>, added: Event)
    requires Gated(log)
    requires added.PointerMoved? ==> Fresh(log, ParityPassed(added.claim))
    ensures Gated(log + [added])
    ensures added.PointerMoved? ==> LastMoved(log + [added]) && MovedUnder(log + [added], added.runtimeFence)
    ensures added.PointerRestored? ==> !LastMoved(log + [added])
  {
    var next := log + [added];
    forall i | 0 <= i < |next| && next[i].PointerMoved?
      ensures Fresh(next[..i], ParityPassed(next[i].claim))
    {
      assert next[..i] == log[..i];
      if i == |log| { assert log[..i] == log; }
    }
    assert next[|log|] == added && QuietFrom(next, |log| + 1);
    if added.PointerRestored? {
      forall i | 0 <= i < |next| && next[i].PointerMoved? ensures !QuietFrom(next, i + 1) {
        assert MovesPointer(next[|log|]);
      }
    }
  }

  /** Only the operation row and the acting runner changed. */
  lemma RowStep(cfg: Config, w: World, row: Operation, r: string, pc: Pc)
    requires Inv(cfg, w)
    requires var w' := Goto(WithRow(cfg, w, row), r, pc); OperationOk(cfg, w') && RunnerOk(cfg, w', r)
    requires row.fence >= Row(cfg, w).fence
    requires forall c: Claim | !Holder(w, c.fence, r) && c.fence <= Row(cfg, w).fence && Current(row, c) ::
               Current(Row(cfg, w), c) && row == Row(cfg, w).(leaseValid := row.leaseValid)
    ensures Inv(cfg, Goto(WithRow(cfg, w, row), r, pc))
  {
    var w' := Goto(WithRow(cfg, w, row), r, pc);
    forall q ensures RunnerOk(cfg, w', q) {
      assert RunnerOk(cfg, w, q);
    }
    assert PointerOk(cfg, w');
  }

  lemma GotoStep(cfg: Config, w: World, r: string, pc: Pc)
    requires Inv(cfg, w)
    requires RunnerOk(cfg, Goto(w, r, pc), r)
    ensures Inv(cfg, Goto(w, r, pc))
  {
    assert WithRow(cfg, w, Row(cfg, w)) == w;
    RowStep(cfg, w, Row(cfg, w), r, pc);
  }

  /** A verification verdict is recorded: the database is untouched. */
  lemma VerdictStep(cfg: Config, w: World, e: Event, r: string, pc: Pc)
    requires Inv(cfg, w) && !MovesPointer(e)
    requires RunnerOk(cfg, Goto(Record(w, e), r, pc), r)
    ensures Inv(cfg, Goto(Record(w, e), r, pc))
  {
    var w' := Record(w, e);
    GatedExtends(w.log, e);
    LastMovedExtends(w.log, w.db.runtime.fence, e);
    forall x { FreshExtends(w.log, x, e); }
    forall q ensures RunnerOk(cfg, w', q) { assert RunnerOk(cfg, w, q); }
    GotoStep(cfg, w', r, pc);
  }

  /** The world after runner `r` has moved the pointer. */
  function AfterMove(cfg: Config, w: World, r: string): World
    requires PcOf(w, r).Resolved? && cfg.target in w.db.generations && w.db.runtime.active in w.db.generations
  {
    var pc, db := PcOf(w, r), Activated(w.db, cfg.target);
    Goto(Record(w.(db := db), PointerMoved(pc.c.fence, db.runtime.fence)), r,
         Cut(pc.c, pc.src, pc.total, db.runtime.fence))
  }

  /** The guard under which it may. */
  predicate MayMove(cfg: Config, w: World, r: string) {
    && PcOf(w, r).Resolved? && PcOf(w, r).seen.active == PcOf(w, r).src
    && CanActivate(w.db, cfg.opId, PcOf(w, r).c, cfg.target, PcOf(w, r).src, PcOf(w, r).seen.fence)
  }

  lemma ActivatedIsCoherent(cfg: Config, db: Db)
    requires Coherent(db) && HasLifecycle(db, cfg.target, Staging) && db.runtime.active == cfg.source != cfg.target
    ensures var db' := Activated(db, cfg.target);
            && Coherent(db') && db'.runtime.active == cfg.target && db'.runtime.previous == Some(cfg.source)
            && !HasLifecycle(db', cfg.target, Retained) && db'.runtime.fence == db.runtime.fence + 1
            && db'.operations == db.operations
  {
  }

  lemma MovedPointer(cfg: Config, w: World, r: string)
    requires Inv(cfg, w) && MayMove(cfg, w, r)
    ensures PointerOk(cfg, AfterMove(cfg, w, r))
  {
    assert RunnerOk(cfg, w, r);
    ActivatedIsCoherent(cfg, w.db);
    GatedExtends(w.log, PointerMoved(PcOf(w, r).c.fence, w.db.runtime.fence + 1));
  }

  lemma MovedOperation(cfg: Config, w: World, r: string)
    requires Inv(cfg, w) && MayMove(cfg, w, r)
    ensures OperationOk(cfg, AfterMove(cfg, w, r))
  {
    assert Row(cfg, AfterMove(cfg, w, r)) == Row(cfg, w) && Row(cfg, w).state == ReadyToCutover;
  }

  lemma MoveStep(cfg: Config, w: World, r: string)
    requires Inv(cfg, w) && MayMove(cfg, w, r)
    ensures forall ch :: Inv(cfg, Gate(cfg, w, r, ch))
  {
    var w' := AfterMove(cfg, w, r);
    MovedPointer(cfg, w, r);
    MovedOperation(cfg, w, r);
    assert RunnerOk(cfg, w, r);
    forall q ensures RunnerOk(cfg, w', q) { assert RunnerOk(cfg, w, q); }
  }

  lemma RestoreStep(cfg: Config, w: World, r: string)
    requires Inv(cfg, w) && PcOf(w, r).PostFailed?
    requires CanRollback(w.db, cfg.opId, PcOf(w, r).c, cfg.target, PcOf(w, r).runtimeFence)
    ensures forall ch :: Inv(cfg, Conclude(cfg, w, r, ch))
  {
    var pc := PcOf(w, r);
    assert RunnerOk(cfg, w, r);
    var db := RolledBack(w.db);
    var e := PointerRestored(pc.c.fence, db.runtime.fence);
    var w' := Goto(Record(w.(db := db), e), r, Recording(pc.c));
    GatedExtends(w.log, e);
    forall q ensures RunnerOk(cfg, w', q) { assert RunnerOk(cfg, w, q); }
    assert PointerOk(cfg, w');
    assert OperationOk(cfg, w');
  }

  lemma StageStep(cfg: Config, w: World, r: string, q: StagingRequest)
    requires Inv(cfg, w) && PcOf(w, r).SourceRecorded?
    requires q.opId == cfg.opId && q.generation == cfg.target && q.claim == PcOf(w, r).c && CanStage(w.db, q)
    ensures Inv(cfg, Goto(w.(db := Staged(w.db, q)), r, Prepared(q.claim, PcOf(w, r).src)))
  {
    assert RunnerOk(cfg, w, r);
    var w' := Goto(w.(db := Staged(w.db, q)), r, Prepared(q.claim, PcOf(w, r).src));
    forall p ensures RunnerOk(cfg, w', p) { assert RunnerOk(cfg, w, p); }
    assert PointerOk(cfg, w');
    assert OperationOk(cfg, w');
  }

  /** Effects of a runner that stay inside the operation row. */
  lemma TransitionStep(cfg: Config, w: World, r: string, q: Request, next: Pc)
    requires Inv(cfg, w) && HasClaim(PcOf(w, r))
    requires HasClaim(next) ==> next.c == PcOf(w, r).c
    requires var res := Transition(Row(cfg, w), PcOf(w, r).c, q);
      res.Success? ==>
        var w' := Goto(WithRow(cfg, w, res.value), r, next);
        OperationOk(cfg, w') && (HasClaim(next) ==> Relies(cfg, w', next))
    ensures Inv(cfg, Attempt(cfg, w, r, Transition(Row(cfg, w), PcOf(w, r).c, q), next))
  {
    assert RunnerOk(cfg, w, r);
    var res := Transition(Row(cfg, w), PcOf(w, r).c, q);
    if res.Success? {
      RowStep(cfg, w, res.value, r, next);
    } else {
      GotoStep(cfg, w, r, Errored);
    }
  }

  lemma HoldingStep(cfg: Config, w: World, r: string, ch: Choice)
    requires Inv(cfg, w) && PcOf(w, r).Holding?
    ensures Inv(cfg, Prepare(cfg, w, r, ch))
  {
    assert RunnerOk(cfg, w, r);
    GotoStep(cfg, w, r, PcOf(Prepare(cfg, w, r, ch), r));
  }

  lemma RecordSourceStep(cfg: Config, w: World, r: string, ch: Choice)
    requires Inv(cfg, w) && PcOf(w, r).Preflighted?
    ensures Inv(cfg, Prepare(cfg, w, r, ch))
  {
    assert RunnerOk(cfg, w, r);
    var src := PcOf(w, r).src;
    TransitionStep(cfg, w, r, Request(Running, None, Some(src), None, false), SourceRecorded(PcOf(w, r).c, src));
  }

  lemma RecordTargetStep(cfg: Config, w: World, r: string, ch: Choice)
    requires Inv(cfg, w) && PcOf(w, r).Prepared?
    ensures Inv(cfg, Prepare(cfg, w, r, ch))
  {
    assert RunnerOk(cfg, w, r);
    TransitionStep(cfg, w, r, Request(Running, None, None, Some(cfg.target), false),
                   Replaying(PcOf(w, r).c, PcOf(w, r).src));
  }

  lemma ReplayStep(cfg: Config, w: World, r: string, ch: Choice)
    requires Inv(cfg, w) && PcOf(w, r).Replaying?
    ensures Inv(cfg, Prepare(cfg, w, r, ch))
  {
    assert RunnerOk(cfg, w, r);
    var pc := PcOf(w, r);
    if ch.finish {
      TransitionStep(cfg, w, r, Request(Verifying, Some((ch.total, ch.total)), None, None, false),
                     Activating(pc.c, pc.src, ch.total));
    } else {
      TransitionStep(cfg, w, r, Request(Running, Some((ch.completed, ch.total)), None, None, false),
                     Replaying(pc.c, pc.src));
    }
  }

  lemma PrepareStep(cfg: Config, w: World, r: string, ch: Choice)
    requires Inv(cfg, w) && Preparing(PcOf(w, r))
    ensures Inv(cfg, Prepare(cfg, w, r, ch))
  {
    match PcOf(w, r)
    case Holding(_, _) => HoldingStep(cfg, w, r, ch);
    case Preflighted(_, _) => RecordSourceStep(cfg, w, r, ch);
    case SourceRecorded(c, src) =>
      var q := StagingRequest(cfg.opId, cfg.target, c, ch.manifestHash, ch.providerManifest);
      if CanStage(w.db, q) { StageStep(cfg, w, r, q); } else { GotoStep(cfg, w, r, Errored); }
    case Prepared(_, _) => RecordTargetStep(cfg, w, r, ch);
    case Replaying(_, _) => ReplayStep(cfg, w, r, ch);
  }

  lemma RenewStep(cfg: Config, w: World, r: string, ch: Choice)
    requires Inv(cfg, w) && PcOf(w, r).Activating?
    ensures Inv(cfg, Gate(cfg, w, r, ch))
  {
    assert RunnerOk(cfg, w, r);
    var pc := PcOf(w, r);
    assert WithRow(cfg, w, Row(cfg, w)) == w;
    if !ch.ok {
      GotoStep(cfg, w, r, Recording(pc.c));
    } else if Renew(Row(cfg, w), pc.c).Success? {
      GotoStep(cfg, w, r, Renewed(pc.c, pc.src, pc.total));
    } else {
      GotoStep(cfg, w, r, Errored);
    }
  }

  lemma ResolvedStep(cfg: Config, w: World, r: string, ch: Choice)
    requires Inv(cfg, w) && PcOf(w, r).Resolved?
    ensures Inv(cfg, Gate(cfg, w, r, ch))
  {
    assert RunnerOk(cfg, w, r);
    var pc := PcOf(w, r);
    if pc.seen.active == pc.src && CanActivate(w.db, cfg.opId, pc.c, cfg.target, pc.src, pc.seen.fence) {
      MoveStep(cfg, w, r);
    } else if pc.seen.active != pc.src && pc.seen.active == cfg.target && pc.seen.previous == Some(pc.src) {
      GotoStep(cfg, w, r, Cut(pc.c, pc.src, pc.total, pc.seen.fence));
    } else {
      GotoStep(cfg, w, r, Errored);
    }
  }

  lemma ParityStep(cfg: Config, w: World, r: string, ch: Choice)
    requires Inv(cfg, w) && PcOf(w, r).Renewed?
    ensures Inv(cfg, Gate(cfg, w, r, ch))
  {
    assert RunnerOk(cfg, w, r);
    var pc := PcOf(w, r);
    if ch.ok {
      FreshExtends(w.log, ParityPassed(pc.c.fence), ParityPassed(pc.c.fence));
      VerdictStep(cfg, w, ParityPassed(pc.c.fence), r, Verified(pc.c, pc.src, pc.total));
    } else {
      GotoStep(cfg, w, r, Recording(pc.c));
    }
  }

  lemma ReadyStep(cfg: Config, w: World, r: string, ch: Choice)
    requires Inv(cfg, w) && PcOf(w, r).Verified?
    ensures Inv(cfg, Gate(cfg, w, r, ch))
  {
    assert RunnerOk(cfg, w, r);
    var pc := PcOf(w, r);
    if ch.ok {
      TransitionStep(cfg, w, r, Request(ReadyToCutover, Some((pc.total, pc.total)), None, None, false),
                     Ready(pc.c, pc.src, pc.total));
    } else {
      GotoStep(cfg, w, r, Recording(pc.c));
    }
  }

  lemma GateStep(cfg: Config, w: World, r: string, ch: Choice)
    requires Inv(cfg, w) && Gating(PcOf(w, r))
    ensures Inv(cfg, Gate(cfg, w, r, ch))
  {
    match PcOf(w, r)
    case Activating(_, _, _) => RenewStep(cfg, w, r, ch);
    case Renewed(_, _, _) => ParityStep(cfg, w, r, ch);
    case Verified(_, _, _) => ReadyStep(cfg, w, r, ch);
    case Ready(c, src, total) =>
      assert RunnerOk(cfg, w, r);
      GotoStep(cfg, w, r, Resolved(c, src, total, w.db.runtime));
    case Resolved(_, _, _, _) => ResolvedStep(cfg, w, r, ch);
  }

  lemma MarkStep(cfg: Config, w: World, r: string)
    requires Inv(cfg, w) && PcOf(w, r).Errored?
    ensures Inv(cfg, Goto(MarkFailure(cfg, w, r), r, Idle))
  {
    var w' := MarkFailure(cfg, w, r);
    assert WithRow(cfg, w, Row(cfg, w)) == w;
    RowStep(cfg, w, Row(cfg, w'), r, Idle);
  }

  lemma PostVerifyStep(cfg: Config, w: World, r: string, ch: Choice)
    requires Inv(cfg, w) && PcOf(w, r).Cut?
    ensures Inv(cfg, Conclude(cfg, w, r, ch))
  {
    assert RunnerOk(cfg, w, r);
    var pc := PcOf(w, r);
    if ch.ok {
      var e := PostVerified(pc.c.fence, pc.runtimeFence);
      FreshExtends(w.log, e, e);
      VerdictStep(cfg, w, e, r, PostPassed(pc.c, pc.src, pc.total, pc.runtimeFence));
    } else {
      GotoStep(cfg, w, r, PostFailed(pc.c, pc.src, pc.total, pc.runtimeFence));
    }
  }

  lemma CompleteStep(cfg: Config, w: World, r: string, ch: Choice)
    requires Inv(cfg, w) && PcOf(w, r).Published?
    ensures Inv(cfg, Conclude(cfg, w, r, ch))
  {
    assert RunnerOk(cfg, w, r);
    var total := PcOf(w, r).total;
    TransitionStep(cfg, w, r, Request(Completed, Some((total, total)), None, None, false), Idle);
  }

  lemma RecordFailureStep(cfg: Config, w: World, r: string, ch: Choice)
    requires Inv(cfg, w) && PcOf(w, r).Recording?
    ensures Inv(cfg, Conclude(cfg, w, r, ch))
  {
    TransitionStep(cfg, w, r, FailureRequest(RetryableFailed), Errored);
  }

  lemma ConcludeStep(cfg: Config, w: World, r: string, ch: Choice)
    requires Inv(cfg, w) && !Preparing(PcOf(w, r)) && !Gating(PcOf(w, r))
    ensures Inv(cfg, Conclude(cfg, w, r, ch))
  {
    match PcOf(w, r)
    case Idle =>
    case Cut(_, _, _, _) => PostVerifyStep(cfg, w, r, ch);
    case PostFailed(c, src, total, f) =>
      if CanRollback(w.db, cfg.opId, c, cfg.target, f) { RestoreStep(cfg, w, r); }
      else { GotoStep(cfg, w, r, Errored); }
    case PostPassed(_, _, _, _) =>
      assert RunnerOk(cfg, w, r);
      GotoStep(cfg, w, r, PcOf(Conclude(cfg, w, r, ch), r));
    case Published(_, _, _, _) => CompleteStep(cfg, w, r, ch);
    case Recording(_) => RecordFailureStep(cfg, w, r, ch);
    case Errored => MarkStep(cfg, w, r);
  }

  /** A claim not yet made can be recorded. */
  lemma HeldStep(cfg: Config, w: World, fence: nat, r: string)
    requires Inv(cfg, w) && fence > Row(cfg, w).fence
    ensures Inv(cfg, Held(w, fence, r))
  {
    forall q ensures RunnerOk(cfg, Held(w, fence, r), q) { assert RunnerOk(cfg, w, q); }
  }

  lemma TakeStep(cfg: Config, w: World, r: string, token: string)
    requires Inv(cfg, w)
    ensures Inv(cfg, Act(cfg, w, Take(r, token)))
  {
    var res := TakeClaim(Row(cfg, w), cfg.name(r), token);
    if PcOf(w, r) == Idle && res.Success? {
      HeldStep(cfg, w, res.value.fence, r);
      RowStep(cfg, Held(w, res.value.fence, r), res.value, r,
              Holding(Claim(cfg.name(r), token, res.value.fence), res.value));
    }
  }

  lemma OperatorStep(cfg: Config, w: World, a: Action)
    requires Inv(cfg, w) && (a.Lapse? || a.RetryOperation? || a.CancelOperation?)
    ensures Inv(cfg, Act(cfg, w, a))
  {
    var w' := Act(cfg, w, a);
    forall q ensures RunnerOk(cfg, w', q) { assert RunnerOk(cfg, w, q); }
  }

  lemma Step(cfg: Config, w: World, a: Action)
    requires Inv(cfg, w)
    ensures Inv(cfg, Act(cfg, w, a))
  {
    match a
    case Take(r, token) => TakeStep(cfg, w, r, token);
    case Advance(r, ch) =>
      if Preparing(PcOf(w, r)) { PrepareStep(cfg, w, r, ch); }
      else if Gating(PcOf(w, r)) { GateStep(cfg, w, r, ch); }
      else { ConcludeStep(cfg, w, r, ch); }
    case Abort(r) => if PcOf(w, r) != Idle { GotoStep(cfg, w, r, Errored); }
    case Crash(r) => GotoStep(cfg, w, r, Idle);
    case _ => OperatorStep(cfg, w, a);
  }

  // ---------------------------------------------------------------------------
  // Every run
  // ---------------------------------------------------------------------------

  lemma {:induction false} RunKeepsInv(cfg: Config, w: World, actions: seq<Action>)
    requires Inv(cfg, w)
    ensures Inv(cfg, Run(cfg, w, actions))
  {
    if actions != [] {
      RunKeepsInv(cfg, w, actions[..|actions| - 1]);
      Step(cfg, Run(cfg, w, actions[..|actions| - 1]), actions[|actions| - 1]);
    }
  }

  /** Safety of the cutover: the pointer only ever names the source or the target; it names
      the target only after a move whose claim had passed parity, with the source retained
      behind it; and COMPLETED means that the target is active and was verified after the
      pointer reached it. */
  ghost predicate Safe(cfg: Config, w: World)
    requires cfg.opId in w.db.operations
  {
    var (db, log) := (w.db, w.log);
    && Coherent(db)
    && db.runtime.active in {cfg.source, cfg.target}
    && Gated(log)
    && (db.runtime.active == cfg.target <==> LastMoved(log))
    && (db.runtime.active == cfg.target ==>
          && db.runtime.previous == Some(cfg.source) && HasLifecycle(db, cfg.source, Retained)
          && MovedUnder(log, db.runtime.fence))
    && (db.operations[cfg.opId].state == Completed ==>
          && db.runtime.active == cfg.target
          && db.operations[cfg.opId].source == db.runtime.previous
          && exists claim :: Fresh(log, PostVerified(claim, db.runtime.fence)))
  }

  lemma InvIsSafe(cfg: Config, w: World)
    requires Inv(cfg, w)
    ensures Safe(cfg, w)
  {
  }

  /** Every run from a pending operation is safe. */
  lemma {:induction false} CutoverIsSafe(cfg: Config, w: World, actions: seq<Action>)
    requires Init(cfg, w)
    ensures Safe(cfg, Run(cfg, w, actions))
  {
    RunKeepsInv(cfg, w, actions);
    InvIsSafe(cfg, Run(cfg, w, actions));
  }

  lemma {:induction false} RunConcat(cfg: Config, w: World, a: seq<Action>, b: seq<Action>)
    requires cfg.opId in w.db.operations
    ensures Run(cfg, w, a + b) == Run(cfg, Run(cfg, w, a), b)
  {
    if b == [] {
      assert a + b == a;
    } else {
      assert (a + b)[..|a + b| - 1] == a + b[..|b| - 1];
      RunConcat(cfg, w, a, b[..|b| - 1]);
    }
  }

  lemma UnownedAdvance(cfg: Config, w: World, r: string, ch: Choice)
    requires Inv(cfg, w) && HasClaim(PcOf(w, r)) && !Current(Row(cfg, w), PcOf(w, r).c)
    ensures AdvanceRunner(cfg, w, r, ch).db == w.db
  {
    assert WithRow(cfg, w, Row(cfg, w)).db == w.db;
  }

  /** A runner whose claim has been superseded can still observe and fail, but none of
      its effects reaches the database; and no effect of any runner does, its outer failure
      handler included, while the row does not carry the name it runs under. */
  lemma StaleRunnerIsHarmless(cfg: Config, w: World, actions: seq<Action>, r: string, ch: Choice)
    requires Init(cfg, w)
    requires var now := Run(cfg, w, actions);
             || (HasClaim(PcOf(now, r)) && PcOf(now, r).c.fence != Row(cfg, now).fence)
             || Row(cfg, now).claimedBy != Some(cfg.name(r))
    ensures AdvanceRunner(cfg, Run(cfg, w, actions), r, ch).db == Run(cfg, w, actions).db
  {
    RunKeepsInv(cfg, w, actions);
    var now := Run(cfg, w, actions);
    if HasClaim(PcOf(now, r)) {
      assert RunnerOk(cfg, now, r);
      UnownedAdvance(cfg, now, r, ch);
    }
  }

  /** A process other than the one that made the current claim, even under the same name, moves
      nothing: all that can reach the database is that its outer failure handler marks the
      operation failed, and only while the row carries the shared name. */
  lemma NamesakeOnlyMarks(cfg: Config, w: World, actions: seq<Action>, r: string, ch: Choice)
    requires Init(cfg, w)
    requires var now := Run(cfg, w, actions); !Holder(now, Row(cfg, now).fence, r)
    ensures var now := Run(cfg, w, actions);
            var next := AdvanceRunner(cfg, now, r, ch);
            || next.db == now.db
            || (&& PcOf(now, r).Errored? && Row(cfg, now).claimedBy == Some(cfg.name(r))
                && Failed(Row(cfg, next).state) && next.db == WithRow(cfg, now, Row(cfg, next)).db)
  {
    RunKeepsInv(cfg, w, actions);
    var now := Run(cfg, w, actions);
    if HasClaim(PcOf(now, r)) {
      assert RunnerOk(cfg, now, r);
      UnownedAdvance(cfg, now, r, ch);
    } else if PcOf(now, r).Errored? {
      MarkingOnlyMarks(cfg, now, r, ch);
    }
  }

  lemma MarkingOnlyMarks(cfg: Config, w: World, r: string, ch: Choice)
    requires cfg.opId in w.db.operations && PcOf(w, r).Errored?
    ensures var next := AdvanceRunner(cfg, w, r, ch);
            || next.db == w.db
            || (&& Row(cfg, w).claimedBy == Some(cfg.name(r)) && Failed(Row(cfg, next).state)
                && next.db == WithRow(cfg, w, Row(cfg, next)).db)
  {
  }

  lemma CompletedStep(cfg: Config, w: World, a: Action)
    requires Inv(cfg, w) && Row(cfg, w).state == Completed
    ensures Act(cfg, w, a).db == w.db
  {
    assert WithRow(cfg, w, Row(cfg, w)).db == w.db;
    if a.Advance? && HasClaim(PcOf(w, a.runner)) {
      UnownedAdvance(cfg, w, a.runner, a.choice);
    } else if a.Lapse? {
      assert Row(cfg, w).(leaseValid := false) == Row(cfg, w);
    }
  }

  /** COMPLETED is the end: nothing any runner or operator does afterwards touches the
      operation, the generations or the pointer. */
  lemma {:induction false} CompletedIsFinal(cfg: Config, w: World, before: seq<Action>, after: seq<Action>)
    requires Init(cfg, w) && Row(cfg, Run(cfg, w, before)).state == Completed
    ensures Run(cfg, w, before + after).db == Run(cfg, w, before).db
  {
    RunKeepsInv(cfg, w, before);
    RunConcat(cfg, w, before, after);
    CompletedStays(cfg, Run(cfg, w, before), after);
  }

  lemma {:induction false} CompletedStays(cfg: Config, w: World, actions: seq<Action>)
    requires Inv(cfg, w) && Row(cfg, w).state == Completed
    ensures Run(cfg, w, actions).db == w.db
  {
    if actions != [] {
      var before := actions[..|actions| - 1];
      CompletedStays(cfg, w, before);
      RunKeepsInv(cfg, w, before);
      CompletedStep(cfg, Run(cfg, w, before), actions[|actions| - 1]);
    }
  }
}
