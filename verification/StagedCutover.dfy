/** The cutover protocol together with the staging stores it is about: any number of runners,
    live or superseded, write replay rows into the same stores while the protocol of `Cutover`
    goes on (mesa_memory/rebuild_runner.py, mesa_storage/rebuild_replay.py, rebuild_cutover.py).
    One job serves all attempts: the recorded manifest hash pins its snapshot and the
    generation row its provider manifest. */
module StagedCutover {
  import opened Wrappers
  import opened Operations
  import opened Generations
  import opened Cutover
  import Attempts
  import Parity
  import Replay

  /** The smoke cases the activator checks when its caller names no limit, as the runner does. */
  const SMOKE_LIMIT: nat := 10

  /** What a rebuild works from, and the vector engine that verifies it. */
  datatype Job = Job(snapshot: Replay.Snapshot, manifest: Replay.Manifest, search: Parity.Search) {
    function Rows(): seq<Replay.Row> {
      Replay.Rows(snapshot)
    }

    predicate Admitted() {
      Replay.Admitted(snapshot, manifest)
    }

    ghost predicate Passes(store: Replay.Store) {
      Parity.Passes(snapshot, store, search, SMOKE_LIMIT)
    }

    predicate Retrievable() {
      Parity.Retrievable(snapshot, search, SMOKE_LIMIT)
    }

    ghost predicate Parallel() {
      Replay.ParallelLinks(Rows())
    }
  }

  /** Where a replaying process stands in the current batch: rows `pos` to `upto` are fetched
      and still to be written. */
  datatype Writer = Writer(pos: nat, upto: nat)

  datatype Joint = Joint(w: World, store: Replay.Store, writers: map<string, Writer>)

  datatype Effect =
    | Protocol(action: Action)
    | Fetch(runner: string, limit: nat)
    | Write(runner: string)

  function WriterOf(j: Joint, r: string): Writer {
    if r in j.writers then j.writers[r] else Writer(0, 0)
  }

  /** What the environment's choices of `Cutover` really depend on: a replay checkpoint reports
      the rows written, the replay ends with the last row, and a verification passes only if
      the stores agree with the snapshot and its smoke cases are found. */
  ghost predicate Permitted(job: Job, j: Joint, a: Action) {
    a.Advance? ==>
      var wr, n := WriterOf(j, a.runner), |job.Rows()|;
      match PcOf(j.w, a.runner)
      case Replaying(_, _) =>
        && job.Admitted() && wr.pos == wr.upto
        && a.choice.completed == wr.pos && a.choice.total == n && (a.choice.finish ==> wr.pos == n)
      case Renewed(_, _, _) => a.choice.ok ==> job.Passes(j.store)
      case Cut(_, _, _, _) => a.choice.ok ==> job.Passes(j.store)
      case _ => true
  }

  /** A new replay starts from the checkpoint in the row. */
  function Opened(cfg: Config, j: Joint, a: Action): map<string, Writer>
    requires cfg.opId in j.w.db.operations
  {
    if a.Advance? && PcOf(j.w, a.runner).Prepared? then
      var done := Row(cfg, j.w).completed;
      j.writers[a.runner := Writer(done, done)]
    else
      j.writers
  }

  function Min(a: nat, b: nat): nat {
    if a <= b then a else b
  }

  /** Renewal precedes every batch: who lost the claim stops here, or else goes on to the end of
      the batch already fetched. */
  function FetchBatch(cfg: Config, job: Job, j: Joint, r: string, limit: nat): Joint
    requires cfg.opId in j.w.db.operations
  {
    var pc, wr := PcOf(j.w, r), WriterOf(j, r);
    if !(pc.Replaying? && job.Admitted() && wr.pos == wr.upto) then j
    else if Renew(Row(cfg, j.w), pc.c).Success? then
      j.(writers := j.writers[r := Writer(wr.pos, Min(wr.pos + limit, |job.Rows()|))])
    else
      j.(w := Act(cfg, j.w, Abort(r)))
  }

  /** Whoever cannot renew the lease gets no further batch and stops. */
  lemma SupersededFetchesNothing(cfg: Config, job: Job, j: Joint, r: string, limit: nat)
    requires cfg.opId in j.w.db.operations && PcOf(j.w, r).Replaying?
    requires Renew(Row(cfg, j.w), PcOf(j.w, r).c).Failure?
    ensures var after := FetchBatch(cfg, job, j, r, limit);
            && after.writers == j.writers && after.store == j.store && after.w.db == j.w.db
            && (job.Admitted() && WriterOf(j, r).pos == WriterOf(j, r).upto ==> PcOf(after.w, r) == Errored)
  {
  }

  /** A write checks no fence. */
  function WriteRow(job: Job, j: Joint, r: string): Joint {
    var wr := WriterOf(j, r);
    if PcOf(j.w, r).Replaying? && wr.pos < wr.upto <= |job.Rows()| then
      j.(store := Replay.ApplyRow(j.store, job.Rows()[wr.pos]),
         writers := j.writers[r := Writer(wr.pos + 1, wr.upto)])
    else
      j
  }

  ghost function Perform(cfg: Config, job: Job, j: Joint, e: Effect): (j': Joint)
    requires cfg.opId in j.w.db.operations
    ensures cfg.opId in j'.w.db.operations
  {
    match e
    case Protocol(a) =>
      if Permitted(job, j, a) then j.(w := Act(cfg, j.w, a), writers := Opened(cfg, j, a)) else j
    case Fetch(r, limit) => FetchBatch(cfg, job, j, r, limit)
    case Write(r) => WriteRow(job, j, r)
  }

  ghost function PerformAll(cfg: Config, job: Job, j: Joint, effects: seq<Effect>): (j': Joint)
    requires cfg.opId in j.w.db.operations
    ensures cfg.opId in j'.w.db.operations
  {
    if effects == [] then j
    else Perform(cfg, job, PerformAll(cfg, job, j, effects[..|effects| - 1]), effects[|effects| - 1])
  }

  /** A pending operation on a new target: empty stores, nobody replaying. */
  ghost predicate Beginning(cfg: Config, j: Joint) {
    && Attempts.Unstarted(cfg, j.w)
    && j.store == Replay.EMPTY && j.writers == map[]
  }

  // ---------------------------------------------------------------------------
  // What the protocol knows about the replay
  // ---------------------------------------------------------------------------

  predicate Past(s: State) {
    s in {Verifying, ReadyToCutover, Completed}
  }

  /** `n` rows are to be replayed, `m` have been; `full` says that all have. */
  predicate RowFits(n: nat, m: nat, full: bool, op: Operation) {
    && op.total in {0, n} && op.completed <= m && op.completed <= op.total
    && (Past(op.state) ==> full && op.completed == op.total == n)
  }

  predicate PcFits(n: nat, full: bool, pc: Pc) {
    match pc
    case Holding(_, row) => row.state == ReadyToCutover ==> full && row.total == n
    case Activating(_, _, total) => full && total == n
    case Renewed(_, _, total) => full && total == n
    case Verified(_, _, total) => full && total == n
    case Ready(_, _, total) => full && total == n
    case Resolved(_, _, total, _) => full && total == n
    case Cut(_, _, total, _) => full && total == n
    case PostPassed(_, _, total, _) => full && total == n
    case Published(_, _, total, _) => full && total == n
    case PostFailed(_, _, total, _) => full && total == n
    case _ => true
  }

  ghost predicate PcsFit(n: nat, full: bool, w: World) {
    forall r :: PcFits(n, full, PcOf(w, r))
  }

  /** A verification passed only if the finished stores agree. */
  predicate LogFits(agree: bool, log: seq<Event>) {
    forall k | 0 <= k < |log| && log[k].ParityPassed? :: agree
  }

  ghost predicate Fits(cfg: Config, n: nat, m: nat, full: bool, agree: bool, w: World) {
    && cfg.opId in w.db.operations && (full ==> m == n)
    && RowFits(n, m, full, Row(cfg, w)) && PcsFit(n, full, w) && LogFits(agree, w.log)
  }

  /** What `Permitted` grants. */
  predicate Grants(n: nat, m: nat, full: bool, agree: bool, pc: Pc, ch: Choice) {
    && (pc.Replaying? ==> ch.completed <= m && ch.total == n && (ch.finish ==> full))
    && (pc.Renewed? && ch.ok ==> agree)
  }

  lemma GotoFits(cfg: Config, n: nat, m: nat, full: bool, agree: bool, w: World, row: Operation, r: string, pc: Pc)
    requires Fits(cfg, n, m, full, agree, w) && RowFits(n, m, full, row) && PcFits(n, full, pc)
    ensures Fits(cfg, n, m, full, agree, Goto(WithRow(cfg, w, row), r, pc))
    ensures Fits(cfg, n, m, full, agree, Goto(w, r, pc))
  {
    var w', v := Goto(WithRow(cfg, w, row), r, pc), Goto(w, r, pc);
    forall q ensures PcFits(n, full, PcOf(w', q)) && PcFits(n, full, PcOf(v, q)) {
      assert PcFits(n, full, PcOf(w, q));
    }
  }

  lemma TransitionFits(n: nat, m: nat, full: bool, op: Operation, c: Claim, q: Request)
    requires RowFits(n, m, full, op)
    requires q.progress.Some? ==> q.progress.value.0 <= m && q.progress.value.1 == n
    requires Past(q.to) ==> full && q.progress == Some((n, n))
    ensures Transition(op, c, q).Success? ==> RowFits(n, m, full, Transition(op, c, q).value)
  {
  }

  lemma AttemptFits(
      cfg: Config, n: nat, m: nat, full: bool, agree: bool, w: World, r: string, c: Claim, q: Request, pc: Pc)
    requires Fits(cfg, n, m, full, agree, w) && PcFits(n, full, pc)
    requires q.progress.Some? ==> q.progress.value.0 <= m && q.progress.value.1 == n
    requires Past(q.to) ==> full && q.progress == Some((n, n))
    ensures Fits(cfg, n, m, full, agree, Attempt(cfg, w, r, Transition(Row(cfg, w), c, q), pc))
  {
    var res := Transition(Row(cfg, w), c, q);
    TransitionFits(n, m, full, Row(cfg, w), c, q);
    GotoFits(cfg, n, m, full, agree, w, if res.Success? then res.value else Row(cfg, w), r,
             if res.Success? then pc else Errored);
  }

  lemma PrepareFits(cfg: Config, n: nat, m: nat, full: bool, agree: bool, w: World, r: string, ch: Choice)
    requires Fits(cfg, n, m, full, agree, w) && Preparing(PcOf(w, r)) && Grants(n, m, full, agree, PcOf(w, r), ch)
    ensures Fits(cfg, n, m, full, agree, Prepare(cfg, w, r, ch))
  {
    assert PcFits(n, full, PcOf(w, r));
    var op := Row(cfg, w);
    match PcOf(w, r)
    case Holding(c, row) => GotoFits(cfg, n, m, full, agree, w, op, r, PcOf(Prepare(cfg, w, r, ch), r));
    case Preflighted(c, src) =>
      AttemptFits(cfg, n, m, full, agree, w, r, c, Request(Running, None, Some(src), None, false),
                  SourceRecorded(c, src));
    case SourceRecorded(c, src) => StagingFits(cfg, n, m, full, agree, w, r, ch);
    case Prepared(c, src) =>
      AttemptFits(cfg, n, m, full, agree, w, r, c, Request(Running, None, None, Some(cfg.target), false),
                  Replaying(c, src));
    case Replaying(c, src) =>
      if ch.finish {
        AttemptFits(cfg, n, m, full, agree, w, r, c,
                    Request(Verifying, Some((ch.total, ch.total)), None, None, false), Activating(c, src, ch.total));
      } else {
        AttemptFits(cfg, n, m, full, agree, w, r, c,
                    Request(Running, Some((ch.completed, ch.total)), None, None, false), Replaying(c, src));
      }
  }

  lemma StagingFits(cfg: Config, n: nat, m: nat, full: bool, agree: bool, w: World, r: string, ch: Choice)
    requires Fits(cfg, n, m, full, agree, w) && PcOf(w, r).SourceRecorded?
    ensures Fits(cfg, n, m, full, agree, Prepare(cfg, w, r, ch))
  {
    var w' := Prepare(cfg, w, r, ch);
    forall q ensures PcFits(n, full, PcOf(w', q)) { assert PcFits(n, full, PcOf(w, q)); }
  }

  lemma GateFits(cfg: Config, n: nat, m: nat, full: bool, agree: bool, w: World, r: string, ch: Choice)
    requires Fits(cfg, n, m, full, agree, w) && Gating(PcOf(w, r)) && Grants(n, m, full, agree, PcOf(w, r), ch)
    ensures Fits(cfg, n, m, full, agree, Gate(cfg, w, r, ch))
  {
    assert PcFits(n, full, PcOf(w, r));
    if PcOf(w, r).Verified? && ch.ok {
      var pc := PcOf(w, r);
      AttemptFits(cfg, n, m, full, agree, w, r, pc.c,
                  Request(ReadyToCutover, Some((pc.total, pc.total)), None, None, false),
                  Ready(pc.c, pc.src, pc.total));
    } else {
      ElsewhereFits(cfg, n, m, full, agree, w, Gate(cfg, w, r, ch), r);
    }
  }

  /** An effect that leaves the row alone. */
  lemma ElsewhereFits(cfg: Config, n: nat, m: nat, full: bool, agree: bool, w: World, w': World, r: string)
    requires Fits(cfg, n, m, full, agree, w) && cfg.opId in w'.db.operations && Row(cfg, w') == Row(cfg, w)
    requires PcFits(n, full, PcOf(w', r)) && LogFits(agree, w'.log)
    requires forall q | q != r :: PcOf(w', q) == PcOf(w, q)
    ensures Fits(cfg, n, m, full, agree, w')
  {
    forall q ensures PcFits(n, full, PcOf(w', q)) { assert PcFits(n, full, PcOf(w, q)); }
  }

  lemma ConcludeFits(cfg: Config, n: nat, m: nat, full: bool, agree: bool, w: World, r: string, ch: Choice)
    requires Fits(cfg, n, m, full, agree, w) && !Preparing(PcOf(w, r)) && !Gating(PcOf(w, r))
    ensures Fits(cfg, n, m, full, agree, Conclude(cfg, w, r, ch))
  {
    var pc := PcOf(w, r);
    assert PcFits(n, full, pc);
    if pc.Published? {
      AttemptFits(cfg, n, m, full, agree, w, r, pc.c,
                  Request(Completed, Some((pc.total, pc.total)), None, None, false), Idle);
    } else if pc.Recording? {
      AttemptFits(cfg, n, m, full, agree, w, r, pc.c, FailureRequest(RetryableFailed), Errored);
    } else if pc.Errored? {
      MarkingFits(cfg, n, m, full, agree, w, r);
    } else {
      ElsewhereFits(cfg, n, m, full, agree, w, Conclude(cfg, w, r, ch), r);
    }
  }

  lemma MarkingFits(cfg: Config, n: nat, m: nat, full: bool, agree: bool, w: World, r: string)
    requires Fits(cfg, n, m, full, agree, w)
    ensures Fits(cfg, n, m, full, agree, Goto(MarkFailure(cfg, w, r), r, Idle))
  {
    var w' := Goto(MarkFailure(cfg, w, r), r, Idle);
    forall q ensures PcFits(n, full, PcOf(w', q)) { assert PcFits(n, full, PcOf(w, q)); }
  }

  lemma HeldFits(cfg: Config, n: nat, m: nat, full: bool, agree: bool, w: World, fence: nat, r: string)
    requires Fits(cfg, n, m, full, agree, w)
    ensures Fits(cfg, n, m, full, agree, Held(w, fence, r))
  {
    forall q ensures PcFits(n, full, PcOf(Held(w, fence, r), q)) { assert PcFits(n, full, PcOf(w, q)); }
  }

  lemma ActFits(cfg: Config, n: nat, m: nat, full: bool, agree: bool, w: World, a: Action)
    requires Fits(cfg, n, m, full, agree, w)
    requires a.Advance? ==> Grants(n, m, full, agree, PcOf(w, a.runner), a.choice)
    ensures Fits(cfg, n, m, full, agree, Act(cfg, w, a))
  {
    var op := Row(cfg, w);
    match a
    case Take(r, token) =>
      var res := TakeClaim(op, cfg.name(r), token);
      if res.Success? {
        HeldFits(cfg, n, m, full, agree, w, res.value.fence, r);
        GotoFits(cfg, n, m, full, agree, Held(w, res.value.fence, r), res.value, r,
                 Holding(Claim(cfg.name(r), token, res.value.fence), res.value));
      }
    case Advance(r, ch) =>
      if Preparing(PcOf(w, r)) { PrepareFits(cfg, n, m, full, agree, w, r, ch); }
      else if Gating(PcOf(w, r)) { GateFits(cfg, n, m, full, agree, w, r, ch); }
      else { ConcludeFits(cfg, n, m, full, agree, w, r, ch); }
    case Abort(r) => GotoFits(cfg, n, m, full, agree, w, op, r, Errored);
    case Crash(r) => GotoFits(cfg, n, m, full, agree, w, op, r, Idle);
    case _ => OperatorFits(cfg, n, m, full, agree, w, a);
  }

  lemma OperatorFits(cfg: Config, n: nat, m: nat, full: bool, agree: bool, w: World, a: Action)
    requires Fits(cfg, n, m, full, agree, w) && (a.Lapse? || a.RetryOperation? || a.CancelOperation?)
    ensures Fits(cfg, n, m, full, agree, Act(cfg, w, a))
  {
    var w' := Act(cfg, w, a);
    forall q ensures PcFits(n, full, PcOf(w', q)) { assert PcFits(n, full, PcOf(w, q)); }
  }

  // ---------------------------------------------------------------------------
  // What holds in every run
  // ---------------------------------------------------------------------------

  predicate WriterOk(n: nat, m: nat, owned: bool, wr: Writer) {
    wr.pos <= wr.upto <= n && wr.pos <= m && (wr.pos < wr.upto ==> owned)
  }

  /** The stores hold the image of the first `m` rows, whoever wrote them. */
  ghost predicate Holds(cfg: Config, job: Job, j: Joint, m: nat) {
    var rows := job.Rows();
    && m <= |rows| && j.store == Replay.Image(rows[..m])
    && (m > 0 ==> job.Admitted())
    && (forall r :: WriterOk(|rows|, m, job.Admitted(), WriterOf(j, r)))
    && Fits(cfg, |rows|, m, Finished(job, m), Finished(job, m) && job.Passes(Replay.Image(rows)), j.w)
  }

  predicate Finished(job: Job, m: nat) {
    m == |job.Rows()| && job.Admitted()
  }

  /** More rows written is no obstacle to anything. */
  lemma FitsGrows(cfg: Config, n: nat, m: nat, m': nat, full: bool, full': bool, agree: bool, agree': bool, w: World)
    requires Fits(cfg, n, m, full, agree, w) && m <= m' && (full ==> full') && (agree ==> agree')
    requires full' ==> m' == n
    ensures Fits(cfg, n, m', full', agree', w)
  {
    forall q ensures PcFits(n, full', PcOf(w, q)) { assert PcFits(n, full, PcOf(w, q)); }
  }

  lemma FinishedStore(cfg: Config, job: Job, j: Joint, m: nat)
    requires Holds(cfg, job, j, m) && m == |job.Rows()|
    ensures j.store == Replay.Image(job.Rows())
  {
    assert job.Rows()[..m] == job.Rows();
  }

  lemma PermissionGrants(cfg: Config, job: Job, j: Joint, m: nat, a: Action)
    requires Holds(cfg, job, j, m) && Permitted(job, j, a) && a.Advance?
    ensures Grants(|job.Rows()|, m, Finished(job, m),
                   Finished(job, m) && job.Passes(Replay.Image(job.Rows())), PcOf(j.w, a.runner), a.choice)
  {
    assert WriterOk(|job.Rows()|, m, job.Admitted(), WriterOf(j, a.runner));
    assert PcFits(|job.Rows()|, Finished(job, m), PcOf(j.w, a.runner));
    if PcOf(j.w, a.runner).Renewed? { FinishedStore(cfg, job, j, m); }
  }

  lemma ProtocolKeeps(cfg: Config, job: Job, j: Joint, m: nat, a: Action)
    requires Holds(cfg, job, j, m)
    ensures Holds(cfg, job, Perform(cfg, job, j, Protocol(a)), m)
  {
    if Permitted(job, j, a) {
      if a.Advance? { PermissionGrants(cfg, job, j, m, a); }
      ActFits(cfg, |job.Rows()|, m, Finished(job, m),
              Finished(job, m) && job.Passes(Replay.Image(job.Rows())), j.w, a);
      var j' := Perform(cfg, job, j, Protocol(a));
      forall r ensures WriterOk(|job.Rows()|, m, job.Admitted(), WriterOf(j', r)) {
        assert WriterOk(|job.Rows()|, m, job.Admitted(), WriterOf(j, r));
      }
    }
  }

  lemma FetchKeeps(cfg: Config, job: Job, j: Joint, m: nat, r: string, limit: nat)
    requires Holds(cfg, job, j, m)
    ensures Holds(cfg, job, FetchBatch(cfg, job, j, r, limit), m)
  {
    var n, full, j' := |job.Rows()|, Finished(job, m), FetchBatch(cfg, job, j, r, limit);
    ActFits(cfg, n, m, full, full && job.Passes(Replay.Image(job.Rows())), j.w, Abort(r));
    assert WriterOk(n, m, job.Admitted(), WriterOf(j, r));
    forall q ensures WriterOk(n, m, job.Admitted(), WriterOf(j', q)) {
      assert WriterOk(n, m, job.Admitted(), WriterOf(j, q));
    }
  }

  /** A write behind the front re-applies a row that is already there; a write at the front
      extends the image by that row. */
  lemma OneWrite(job: Job, m: nat, pos: nat) returns (m': nat)
    requires Replay.FromQueries(job.snapshot) && job.Admitted() && pos <= m <= |job.Rows()| && pos < |job.Rows()|
    ensures m <= m' <= |job.Rows()| && pos < m'
    ensures Replay.ApplyRow(Replay.Image(job.Rows()[..m]), job.Rows()[pos])
            == Replay.Image(job.Rows()[..m'])
  {
    Replay.OwnedSnapshotIsReplayable(job.snapshot);
    if pos < m {
      m' := m;
      Replay.ReapplyIsNoOp(job.Rows(), m, pos);
    } else {
      m' := m + 1;
      Replay.ImageSnoc(job.Rows(), m);
    }
  }

  lemma WritersKeep(job: Job, j: Joint, m: nat, m': nat, r: string)
    requires forall q :: WriterOk(|job.Rows()|, m, job.Admitted(), WriterOf(j, q))
    requires m <= m' && (WriterOf(j, r).pos < WriterOf(j, r).upto ==> WriterOf(j, r).pos < m')
    ensures forall q :: WriterOk(|job.Rows()|, m', job.Admitted(), WriterOf(WriteRow(job, j, r), q))
  {
    forall q ensures WriterOk(|job.Rows()|, m', job.Admitted(), WriterOf(WriteRow(job, j, r), q)) {
      assert WriterOk(|job.Rows()|, m, job.Admitted(), WriterOf(j, q));
    }
  }

  lemma WriteKeeps(cfg: Config, job: Job, j: Joint, m: nat, r: string) returns (m': nat)
    requires Replay.FromQueries(job.snapshot) && Holds(cfg, job, j, m)
    requires PcOf(j.w, r).Replaying? && WriterOf(j, r).pos < WriterOf(j, r).upto
    ensures m <= m' && Holds(cfg, job, WriteRow(job, j, r), m')
  {
    assert WriterOk(|job.Rows()|, m, job.Admitted(), WriterOf(j, r));
    m' := OneWrite(job, m, WriterOf(j, r).pos);
    var agree := job.Passes(Replay.Image(job.Rows()));
    FitsGrows(cfg, |job.Rows()|, m, m', Finished(job, m), Finished(job, m'),
              Finished(job, m) && agree, Finished(job, m') && agree, j.w);
    WritersKeep(job, j, m, m', r);
  }

  lemma EffectKeeps(cfg: Config, job: Job, j: Joint, m: nat, e: Effect) returns (m': nat)
    requires Replay.FromQueries(job.snapshot) && Holds(cfg, job, j, m)
    ensures m <= m' && Holds(cfg, job, Perform(cfg, job, j, e), m')
  {
    m' := m;
    match e
    case Protocol(a) => ProtocolKeeps(cfg, job, j, m, a);
    case Fetch(r, limit) => FetchKeeps(cfg, job, j, m, r, limit);
    case Write(r) =>
      if PcOf(j.w, r).Replaying? && WriterOf(j, r).pos < WriterOf(j, r).upto { m' := WriteKeeps(cfg, job, j, m, r); }
  }

  /** Everything that every effect keeps. */
  ghost predicate Settled(cfg: Config, job: Job, j: Joint, m: nat) {
    && Replay.FromQueries(job.snapshot) && Holds(cfg, job, j, m) && Inv(cfg, j.w) && cfg.target != "legacy"
    && Attempts.Whole(Row(cfg, j.w)) && Attempts.OwnTarget(cfg, j.w.db)
  }

  /** An effect acts on the protocol as one of its actions does, or not at all. */
  lemma ProtocolPart(cfg: Config, job: Job, j: Joint, e: Effect) returns (a: Action)
    requires cfg.opId in j.w.db.operations
    ensures Perform(cfg, job, j, e).w in {j.w, Act(cfg, j.w, a)}
  {
    match e
    case Protocol(action) => a := action;
    case Fetch(r, _) => a := Abort(r);
    case Write(r) => a := Abort(r);
  }

  lemma EffectSettles(cfg: Config, job: Job, j: Joint, m: nat, e: Effect) returns (m': nat)
    requires Settled(cfg, job, j, m)
    ensures m <= m' && Settled(cfg, job, Perform(cfg, job, j, e), m')
  {
    m' := EffectKeeps(cfg, job, j, m, e);
    var a := ProtocolPart(cfg, job, j, e);
    Step(cfg, j.w, a);
    Attempts.ActKeepsWhole(cfg, j.w, a);
    Attempts.ActKeepsTarget(cfg, j.w, a);
  }

  lemma BeginningIsSettled(cfg: Config, job: Job, j: Joint)
    requires Replay.FromQueries(job.snapshot) && Beginning(cfg, j)
    ensures Settled(cfg, job, j, 0)
  {
    assert job.Rows()[..0] == [];
  }

  lemma {:induction false} EffectsSettle(cfg: Config, job: Job, j: Joint, m: nat, effects: seq<Effect>)
    returns (m': nat)
    requires Settled(cfg, job, j, m)
    ensures m <= m' && Settled(cfg, job, PerformAll(cfg, job, j, effects), m')
  {
    if effects == [] {
      m' := m;
    } else {
      m' := EffectsSettle(cfg, job, j, m, effects[..|effects| - 1]);
      m' := EffectSettles(cfg, job, PerformAll(cfg, job, j, effects[..|effects| - 1]), m', effects[|effects| - 1]);
    }
  }

  /** What holds after any effects from the beginning. */
  lemma RunSettles(cfg: Config, job: Job, j: Joint, effects: seq<Effect>) returns (m: nat)
    requires Replay.FromQueries(job.snapshot) && Beginning(cfg, j)
    ensures Settled(cfg, job, PerformAll(cfg, job, j, effects), m)
  {
    BeginningIsSettled(cfg, job, j);
    m := EffectsSettle(cfg, job, j, 0, effects);
  }

  /** Whoever wrote, in whatever order, however often interrupted: the stores always hold
      exactly what the first rows of the snapshot ask for, at least as many of them as the row
      announces. */
  lemma StoresHoldAPrefix(cfg: Config, job: Job, j: Joint, effects: seq<Effect>) returns (m: nat)
    requires Replay.FromQueries(job.snapshot) && Beginning(cfg, j)
    ensures var end := PerformAll(cfg, job, j, effects);
            && Row(cfg, end.w).completed <= m <= |job.Rows()|
            && end.store == Replay.Image(job.Rows()[..m])
            && Replay.Sourced(end.store, job.Rows()[..m]) && Replay.Complete(end.store, job.Rows()[..m])
            && (Past(Row(cfg, end.w).state) ==> m == |job.Rows()|)
  {
    m := RunSettles(cfg, job, j, effects);
    if m > 0 { Replay.OwnedSnapshotIsReplayable(job.snapshot); Replay.ImageIsExact(job.Rows(), m); }
    else { assert job.Rows()[..0] == []; }
  }

  lemma ActiveMeansPassed(cfg: Config, w: World)
    requires Inv(cfg, w) && w.db.runtime.active == cfg.target
    ensures exists k :: 0 <= k < |w.log| && w.log[k].ParityPassed?
  {
    assert LastMoved(w.log);
    var i :| 0 <= i < |w.log| && w.log[i].PointerMoved? && QuietFrom(w.log, i + 1);
    assert Fresh(w.log[..i], ParityPassed(w.log[i].claim));
    var k :| 0 <= k < |w.log[..i]| && w.log[..i][k] == ParityPassed(w.log[i].claim) && QuietFrom(w.log[..i], k);
    assert w.log[k].ParityPassed?;
  }

  lemma SettledIsExact(cfg: Config, job: Job, j: Joint, m: nat)
    requires Settled(cfg, job, j, m) && j.w.db.runtime.active == cfg.target
    ensures job.Admitted() && !job.Parallel() && job.Retrievable()
    ensures Replay.IsProjection(j.store, job.Rows()) && job.Passes(j.store)
  {
    ActiveMeansPassed(cfg, j.w);
    FinishedStore(cfg, job, j, m);
    Replay.OwnedSnapshotIsReplayable(job.snapshot);
    Replay.FullReplayIsProjection(job.Rows());
    Parity.ReplayedStorePassesIff(job.snapshot, job.search, SMOKE_LIMIT);
  }

  /** The runtime never names a generation whose stores are not the projection: in every run
      of any number of runners, superseded ones still writing, while the target is active its
      stores hold exactly the rows of the snapshot, each with its own content. */
  lemma ActiveTargetIsExact(cfg: Config, job: Job, j: Joint, effects: seq<Effect>)
    requires Replay.FromQueries(job.snapshot) && Beginning(cfg, j)
    ensures var end := PerformAll(cfg, job, j, effects);
            end.w.db.runtime.active == cfg.target ==>
              && job.Admitted() && !job.Parallel() && job.Retrievable()
              && Replay.IsProjection(end.store, job.Rows()) && job.Passes(end.store)
  {
    var end := PerformAll(cfg, job, j, effects);
    var m := RunSettles(cfg, job, j, effects);
    if end.w.db.runtime.active == cfg.target { SettledIsExact(cfg, job, end, m); }
  }

  // ---------------------------------------------------------------------------
  // The target is reached exactly when that is possible
  // ---------------------------------------------------------------------------

  lemma {:induction false} PerformConcat(cfg: Config, job: Job, j: Joint, a: seq<Effect>, b: seq<Effect>)
    requires cfg.opId in j.w.db.operations
    ensures PerformAll(cfg, job, j, a + b) == PerformAll(cfg, job, PerformAll(cfg, job, j, a), b)
  {
    if b == [] {
      assert a + b == a;
    } else {
      assert (a + b)[..|a + b| - 1] == a + b[..|b| - 1];
      PerformConcat(cfg, job, j, a, b[..|b| - 1]);
    }
  }

  lemma PerformOne(cfg: Config, job: Job, j: Joint, e: Effect)
    requires cfg.opId in j.w.db.operations
    ensures PerformAll(cfg, job, j, [e]) == Perform(cfg, job, j, e)
  {
    assert [e][..0] == [];
    assert PerformAll(cfg, job, j, []) == j;
  }

  /** `end` can be reached from `j`. */
  ghost predicate Leads(cfg: Config, job: Job, j: Joint, effects: seq<Effect>, end: Joint) {
    cfg.opId in j.w.db.operations && PerformAll(cfg, job, j, effects) == end
  }

  lemma LeadsOn(cfg: Config, job: Job, j: Joint, effects: seq<Effect>, mid: Joint, e: Effect)
    requires Leads(cfg, job, j, effects, mid)
    ensures Leads(cfg, job, j, effects + [e], Perform(cfg, job, mid, e))
  {
    PerformConcat(cfg, job, j, effects, [e]);
    PerformOne(cfg, job, mid, e);
  }

  /** Runner `r` writes the rows it has fetched. */
  lemma {:induction false} WriteOut(cfg: Config, job: Job, j: Joint, r: string)
    returns (effects: seq<Effect>, end: Joint)
    requires cfg.opId in j.w.db.operations && PcOf(j.w, r).Replaying?
    requires WriterOf(j, r).pos <= WriterOf(j, r).upto <= |job.Rows()|
    ensures Leads(cfg, job, j, effects, end)
    ensures end.w == j.w && WriterOf(end, r) == Writer(WriterOf(j, r).upto, WriterOf(j, r).upto)
    decreases WriterOf(j, r).upto - WriterOf(j, r).pos
  {
    var wr := WriterOf(j, r);
    if wr.pos == wr.upto {
      effects, end := [], j;
    } else {
      var next := Perform(cfg, job, j, Write(r));
      var rest;
      rest, end := WriteOut(cfg, job, next, r);
      effects := [Write(r)] + rest;
      PerformConcat(cfg, job, j, [Write(r)], rest);
      PerformOne(cfg, job, j, Write(r));
    }
  }

  /** One more effect of an attempt that goes well. */
  lemma GoOn(
      cfg: Config, job: Job, j: Joint, effects: seq<Effect>, mid: Joint, r: string, c: Claim, ch: Choice, k: nat)
    returns (effects': seq<Effect>, next: Joint)
    requires k < 11 && Attempts.Reached(cfg, mid.w, r, c, ch, k) && Leads(cfg, job, j, effects, mid)
    requires Permitted(job, mid, Advance(r, ch))
    ensures Leads(cfg, job, j, effects', next) && Attempts.Reached(cfg, next.w, r, c, ch, k + 1)
    ensures next.store == mid.store && next.writers == Opened(cfg, mid, Advance(r, ch))
  {
    var a := Advance(r, ch);
    next, effects' := Perform(cfg, job, mid, Protocol(a)), effects + [Protocol(a)];
    LeadsOn(cfg, job, j, effects, mid, Protocol(a));
    Attempts.ReachedNext(cfg, mid.w, r, c, ch, k);
  }

  lemma PermittedEarly(cfg: Config, job: Job, j: Joint, r: string, c: Claim, ch: Choice, k: nat)
    requires k < 4 && Attempts.Reached(cfg, j.w, r, c, ch, k)
    ensures Permitted(job, j, Advance(r, ch)) && (k == 3 ==> PcOf(j.w, r).Prepared?)
  {
  }

  /** An attempt that goes well, up to the start of its replay. */
  lemma {:induction false} ToReplay(
      cfg: Config, job: Job, j: Joint, effects: seq<Effect>, mid: Joint, r: string, c: Claim, ch: Choice, k: nat)
    returns (effects': seq<Effect>, end: Joint)
    requires k < 4 && Attempts.Reached(cfg, mid.w, r, c, ch, k) && Leads(cfg, job, j, effects, mid)
    ensures Leads(cfg, job, j, effects', end) && WriterOf(end, r).pos == WriterOf(end, r).upto
    ensures Attempts.Reached(cfg, end.w, r, c, ch, 4)
    decreases 4 - k
  {
    PermittedEarly(cfg, job, mid, r, c, ch, k);
    effects', end := GoOn(cfg, job, j, effects, mid, r, c, ch, k);
    if k < 3 { effects', end := ToReplay(cfg, job, j, effects', end, r, c, ch, k + 1); }
  }

  /** One batch with every row that is left is fetched ... */
  lemma FetchAll(
      cfg: Config, job: Job, j: Joint, m: nat, effects: seq<Effect>, mid: Joint, r: string, c: Claim, ch: Choice)
    returns (fetched: Joint)
    requires Settled(cfg, job, j, m) && job.Admitted() && Leads(cfg, job, j, effects, mid)
    requires Attempts.Reached(cfg, mid.w, r, c, ch, 4) && WriterOf(mid, r).pos == WriterOf(mid, r).upto
    ensures Leads(cfg, job, j, effects + [Fetch(r, |job.Rows()|)], fetched) && fetched.w == mid.w
    ensures WriterOf(fetched, r).pos <= WriterOf(fetched, r).upto == |job.Rows()| && PcOf(mid.w, r).Replaying?
  {
    var n := |job.Rows()|;
    var m1 := EffectsSettle(cfg, job, j, m, effects);
    assert WriterOk(n, m1, job.Admitted(), WriterOf(mid, r));
    fetched := Perform(cfg, job, mid, Fetch(r, n));
    LeadsOn(cfg, job, j, effects, mid, Fetch(r, n));
  }

  /** ... and written. */
  lemma ReplayAll(
      cfg: Config, job: Job, j: Joint, m: nat, effects: seq<Effect>, mid: Joint, r: string, c: Claim, ch: Choice)
    returns (effects': seq<Effect>, end: Joint)
    requires Settled(cfg, job, j, m) && job.Admitted() && Leads(cfg, job, j, effects, mid)
    requires Attempts.Reached(cfg, mid.w, r, c, ch, 4) && WriterOf(mid, r).pos == WriterOf(mid, r).upto
    ensures Leads(cfg, job, j, effects', end) && end.store == Replay.Image(job.Rows())
    ensures end.w == mid.w && WriterOf(end, r) == Writer(|job.Rows()|, |job.Rows()|)
  {
    var fetched := FetchAll(cfg, job, j, m, effects, mid, r, c, ch);
    var writes;
    writes, end := WriteOut(cfg, job, fetched, r);
    var fetch := effects + [Fetch(r, |job.Rows()|)];
    effects' := fetch + writes;
    PerformConcat(cfg, job, j, fetch, writes);
    WrittenOut(cfg, job, j, m, effects', end, r);
  }

  lemma WrittenOut(cfg: Config, job: Job, j: Joint, m: nat, effects: seq<Effect>, end: Joint, r: string)
    requires Settled(cfg, job, j, m) && Leads(cfg, job, j, effects, end)
    requires WriterOf(end, r).pos == |job.Rows()|
    ensures end.store == Replay.Image(job.Rows())
  {
    var m' := EffectsSettle(cfg, job, j, m, effects);
    assert WriterOk(|job.Rows()|, m', job.Admitted(), WriterOf(end, r));
    FinishedStore(cfg, job, end, m');
  }

  /** The replay and each later effect of such an attempt are permitted. */
  lemma PermittedAt(cfg: Config, job: Job, j: Joint, r: string, c: Claim, ch: Choice, k: nat)
    requires 4 <= k < 11 && Attempts.Reached(cfg, j.w, r, c, ch, k) && ch.total == |job.Rows()|
    requires job.Admitted() && job.Passes(j.store)
    requires WriterOf(j, r) == Writer(|job.Rows()|, |job.Rows()|)
    ensures Permitted(job, j, Advance(r, ch))
    ensures !PcOf(j.w, r).Prepared?
  {
  }

  /** ... and on to the end of the last verification. */
  lemma {:induction false} ToVerified(
      cfg: Config, job: Job, j: Joint, effects: seq<Effect>, mid: Joint, r: string, c: Claim, ch: Choice, k: nat)
    returns (effects': seq<Effect>, end: Joint)
    requires 4 <= k <= 11 && Attempts.Reached(cfg, mid.w, r, c, ch, k) && Leads(cfg, job, j, effects, mid)
    requires job.Admitted() && job.Passes(mid.store) && ch.total == |job.Rows()|
    requires WriterOf(mid, r) == Writer(|job.Rows()|, |job.Rows()|)
    ensures Leads(cfg, job, j, effects', end) && Attempts.Reached(cfg, end.w, r, c, ch, 11)
    decreases 11 - k
  {
    if k == 11 {
      effects', end := effects, mid;
    } else {
      PermittedAt(cfg, job, mid, r, c, ch, k);
      effects', end := GoOn(cfg, job, j, effects, mid, r, c, ch, k);
      effects', end := ToVerified(cfg, job, j, effects', end, r, c, ch, k + 1);
    }
  }

  /** The last two effects: the pointer is read once more, and the row completed. */
  lemma Completing(cfg: Config, w: World, r: string, c: Claim, ch: Choice)
    requires Attempts.Reached(cfg, w, r, c, ch, 11)
    ensures var published := Act(cfg, w, Advance(r, ch));
            && PcOf(published, r) == Published(c, cfg.source, ch.total, w.db.runtime.fence)
            && Row(cfg, Act(cfg, published, Advance(r, ch))).state == Completed
  {
    var published := Act(cfg, w, Advance(r, ch));
    assert PcOf(published, r) == Published(c, cfg.source, ch.total, w.db.runtime.fence);
    assert Row(cfg, published) == Row(cfg, w);
  }

  lemma Publish(
      cfg: Config, job: Job, j: Joint, effects: seq<Effect>, mid: Joint, r: string, c: Claim, ch: Choice)
    returns (effects': seq<Effect>, end: Joint)
    requires Leads(cfg, job, j, effects, mid) && Attempts.Reached(cfg, mid.w, r, c, ch, 11)
    ensures Leads(cfg, job, j, effects', end) && Row(cfg, end.w).state == Completed
  {
    var a := Advance(r, ch);
    Completing(cfg, mid.w, r, c, ch);
    assert Permitted(job, mid, a);
    var published := Perform(cfg, job, mid, Protocol(a));
    assert published.w == Act(cfg, mid.w, a);
    assert Permitted(job, published, a);
    end := Perform(cfg, job, published, Protocol(a));
    LeadsOn(cfg, job, j, effects, mid, Protocol(a));
    LeadsOn(cfg, job, j, effects + [Protocol(a)], published, Protocol(a));
    effects' := effects + [Protocol(a)] + [Protocol(a)];
  }

  ghost predicate CanComplete(cfg: Config, job: Job, j: Joint)
    requires cfg.opId in j.w.db.operations
  {
    exists effects :: Row(cfg, PerformAll(cfg, job, j, effects).w).state == Completed
  }

  /** From a settled world in which an attempt can start, a good one completes. */
  lemma StartableCompletes(
      cfg: Config, job: Job, j: Joint, m: nat, effects: seq<Effect>, start: Joint, r: string, ch: Choice)
    requires Settled(cfg, job, j, m) && Leads(cfg, job, j, effects, start)
    requires Attempts.Startable(cfg, start.w, r, ch) && ch.total == |job.Rows()|
    requires job.Admitted() && !job.Parallel() && job.Retrievable()
    ensures CanComplete(cfg, job, j)
  {
    var c, take := Claim(cfg.name(r), "t", Row(cfg, start.w).fence + 1), Protocol(Take(r, "t"));
    LeadsOn(cfg, job, j, effects, start, take);
    Attempts.ClaimReached(cfg, start.w, r, "t", ch);
    var all, end := ToReplay(cfg, job, j, effects + [take], Perform(cfg, job, start, take), r, c, ch, 0);
    all, end := ReplayAll(cfg, job, j, m, all, end, r, c, ch);
    Parity.ReplayedStorePassesIff(job.snapshot, job.search, SMOKE_LIMIT);
    all, end := ToVerified(cfg, job, j, all, end, r, c, ch, 4);
    all, end := Publish(cfg, job, j, all, end, r, c, ch);
    assert Row(cfg, PerformAll(cfg, job, j, all).w).state == Completed;
  }

  /** The dead runner and the reopening, as effects. */
  lemma ToStart(cfg: Config, job: Job, j: Joint, r: string) returns (effects: seq<Effect>, start: Joint)
    requires cfg.opId in j.w.db.operations
    ensures Leads(cfg, job, j, effects, start)
    ensures var died := Act(cfg, j.w, Crash(r));
            var reopening := Attempts.Reopening(Row(cfg, j.w).state);
            start.w == if reopening == [] then died else Act(cfg, died, reopening[0])
  {
    var crash := Protocol(Crash(r));
    var reopening := Attempts.Reopening(Row(cfg, j.w).state);
    effects, start := [crash], Perform(cfg, job, j, crash);
    PerformOne(cfg, job, j, crash);
    if reopening != [] {
      var open := Protocol(reopening[0]);
      LeadsOn(cfg, job, j, effects, start, open);
      effects, start := effects + [open], Perform(cfg, job, start, open);
    }
  }

  lemma RestartCompletes(cfg: Config, job: Job, j: Joint, m: nat)
    requires Settled(cfg, job, j, m) && Attempts.Restartable(Row(cfg, j.w).state)
    requires j.w.db.runtime.active == cfg.source
    requires job.Admitted() && !job.Parallel() && job.Retrievable()
    ensures CanComplete(cfg, job, j)
  {
    var ch := Attempts.Again(cfg, j.w.db, |job.Rows()|);
    var effects, start := ToStart(cfg, job, j, "r");
    Attempts.Reopened(cfg, j.w, "r", |job.Rows()|);
    StartableCompletes(cfg, job, j, m, effects, start, "r", ch);
  }

  lemma {:induction false} StrandedStays(cfg: Config, job: Job, j: Joint, m: nat, effects: seq<Effect>)
    requires Settled(cfg, job, j, m) && Attempts.Stranded(cfg, j.w)
    ensures Attempts.Stranded(cfg, PerformAll(cfg, job, j, effects).w)
  {
    if effects != [] {
      var before, e := PerformAll(cfg, job, j, effects[..|effects| - 1]), effects[|effects| - 1];
      StrandedStays(cfg, job, j, m, effects[..|effects| - 1]);
      var m1 := EffectsSettle(cfg, job, j, m, effects[..|effects| - 1]);
      var a := ProtocolPart(cfg, job, before, e);
      Attempts.StrandedStays(cfg, before.w, a);
    }
  }

  lemma CompletionMeans(cfg: Config, job: Job, j: Joint, m: nat)
    requires Settled(cfg, job, j, m) && Attempts.Restartable(Row(cfg, j.w).state) && CanComplete(cfg, job, j)
    ensures j.w.db.runtime.active == cfg.source
    ensures job.Admitted() && !job.Parallel() && job.Retrievable()
  {
    var effects :| Row(cfg, PerformAll(cfg, job, j, effects).w).state == Completed;
    var m' := EffectsSettle(cfg, job, j, m, effects);
    SettledIsExact(cfg, job, PerformAll(cfg, job, j, effects), m');
    if j.w.db.runtime.active == cfg.target { StrandedStays(cfg, job, j, m, effects); }
  }

  /** From any world a run can reach with the operation pending, claimed, running or failed with
      retries: it can still complete if and only if the source is active, the snapshot passes the
      replayer's checks, no pair of assertions carries two relations, and each of the first smoke
      cases can be retrieved from the vector rows. */
  lemma RestartCompletesIff(cfg: Config, job: Job, j: Joint, before: seq<Effect>)
    requires Replay.FromQueries(job.snapshot) && Beginning(cfg, j)
    requires Attempts.Restartable(Row(cfg, PerformAll(cfg, job, j, before).w).state)
    ensures var now := PerformAll(cfg, job, j, before);
            CanComplete(cfg, job, now) <==>
              && now.w.db.runtime.active == cfg.source
              && job.Admitted() && !job.Parallel() && job.Retrievable()
  {
    var now := PerformAll(cfg, job, j, before);
    var m := RunSettles(cfg, job, j, before);
    if CanComplete(cfg, job, now) {
      CompletionMeans(cfg, job, now, m);
    } else if now.w.db.runtime.active == cfg.source && job.Admitted() && !job.Parallel() && job.Retrievable() {
      RestartCompletes(cfg, job, now, m);
    }
  }

  /** A rebuild can complete if and only if its snapshot passes the replayer's checks, no pair of
      assertions carries two relations, and each of the first smoke cases can be retrieved from
      the vector rows. */
  lemma CompletesIff(cfg: Config, job: Job, j: Joint)
    requires Replay.FromQueries(job.snapshot) && Beginning(cfg, j)
    ensures CanComplete(cfg, job, j) <==> job.Admitted() && !job.Parallel() && job.Retrievable()
  {
    assert PerformAll(cfg, job, j, []) == j;
    RestartCompletesIff(cfg, job, j, []);
  }

  /** A rebuild whose first smoke cases include an entity's vector, with no assertion vector of
      the same agent and id, never completes, whatever the vector engine does. */
  lemma EntityVectorBlocks(cfg: Config, job: Job, j: Joint, k: nat)
    requires Replay.FromQueries(job.snapshot) && Parity.IsSearch(job.search) && Beginning(cfg, j)
    requires k < SMOKE_LIMIT && k < |job.snapshot.cases|
    requires var c := job.snapshot.cases[k];
             !Replay.VectorAmong(job.snapshot.vectors, Replay.Key(c.scope.agent, c.id))
    ensures job.snapshot.cases[k].entity && !CanComplete(cfg, job, j)
  {
    assert job.snapshot.cases[k] in job.snapshot.cases;
    Parity.RetrievableIff(job.snapshot, job.search, SMOKE_LIMIT);
    CompletesIff(cfg, job, j);
  }

  /** One entity vector is enough: a snapshot that passes every check, replays exactly and agrees
      with its replay can never complete. */
  lemma OneEntityVectorNeverCompletes(
      cfg: Config, j: Joint, e: string, scope: Replay.Scope, manifest: Replay.Manifest, search: Parity.Search)
    requires Parity.IsSearch(search) && Beginning(cfg, j)
    ensures var s := Parity.OneEntityVector(e, scope);
            && Replay.FromQueries(s) && Replay.Owned(s) && !Replay.ParallelLinks(Replay.Rows(s))
            && !CanComplete(cfg, Job(s, manifest, search), j)
  {
    Parity.EntityVectorPasses(e, scope);
    Parity.EntityVectorIsNeverFound(e, scope, search, SMOKE_LIMIT);
    CompletesIff(cfg, Job(Parity.OneEntityVector(e, scope), manifest, search), j);
  }
}
