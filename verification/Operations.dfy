/** The durable operation row and its fenced transitions.  One function is one SQLite
    transaction: it either fails and changes nothing, or yields the whole new row.
    The wall clock appears only as `leaseValid`; the step system of `Cutover` lets a
    lease lapse at any moment. */
module Operations {
  import opened Wrappers

  datatype State =
    | Pending | Claimed | Running | Verifying | ReadyToCutover
    | Completed | RetryableFailed | FinalFailed | Cancelled

  datatype Error = NotFound | StateError | Fenced

  /** What a runner presents to prove that it owns the operation. */
  datatype Claim = Claim(runner: string, token: string, fence: nat)

  datatype Operation = Operation(
    state: State,
    claimedBy: Option<string>,
    claimToken: Option<string>,
    fence: nat,
    leaseValid: bool,
    attempts: nat,
    retryLimit: nat,
    completed: nat,
    total: nat,
    source: Option<string>,
    target: Option<string>)

  predicate Executing(s: State) {
    s in {Claimed, Running, Verifying, ReadyToCutover}
  }

  predicate Final(s: State) {
    s in {Completed, RetryableFailed, FinalFailed, Cancelled}
  }

  predicate Failed(s: State) {
    s in {RetryableFailed, FinalFailed}
  }

  predicate Allowed(from: State, to: State) {
    match from
    case Claimed => to in {Running, RetryableFailed, FinalFailed}
    case Running => to in {Running, Verifying, RetryableFailed, FinalFailed}
    case Verifying => to in {Verifying, ReadyToCutover, RetryableFailed, FinalFailed}
    case ReadyToCutover => to in {ReadyToCutover, Completed, RetryableFailed, FinalFailed}
    case _ => false
  }

  /** The fence every transaction re-checks: owner, token, fencing number and lease. */
  predicate Owns(op: Operation, c: Claim) {
    && op.claimedBy == Some(c.runner)
    && op.claimToken == Some(c.token)
    && op.fence == c.fence
    && op.leaseValid
  }

  function TakeClaim(op: Operation, runner: string, token: string): Result<Operation, Error> {
    if op.state == Pending || (Executing(op.state) && !op.leaseValid) then
      Success(op.(state := if op.state == Pending then Claimed else op.state,
                  claimedBy := Some(runner),
                  claimToken := Some(token),
                  fence := op.fence + 1,
                  attempts := op.attempts + 1,
                  leaseValid := true))
    else
      Failure(StateError)
  }

  function Renew(op: Operation, c: Claim): Result<Operation, Error> {
    if !Executing(op.state) then Failure(StateError)
    else if !Owns(op, c) then Failure(Fenced)
    else Success(op)
  }

  /** A transition request.  `progress` is (completed, total); every caller modelled here
      also writes a checkpoint, so the same-state-without-checkpoint rejection cannot arise. */
  datatype Request = Request(
    to: State,
    progress: Option<(nat, nat)>,
    source: Option<string>,
    target: Option<string>,
    errorClass: bool)

  function Transition(op: Operation, c: Claim, q: Request): Result<Operation, Error> {
    var (completed, total) := if q.progress.Some? then q.progress.value else (op.completed, op.total);
    if !Owns(op, c) then Failure(Fenced)
    else if !Allowed(op.state, q.to) then Failure(StateError)
    else if Failed(q.to) != q.errorClass then Failure(StateError)
    else if q.to == RetryableFailed && op.attempts >= op.retryLimit then Failure(StateError)
    else if completed < op.completed then Failure(StateError)
    else if op.total != 0 && total != op.total then Failure(StateError)
    else if total < completed then Failure(StateError)
    else if q.to in {Verifying, ReadyToCutover, Completed} && completed != total then Failure(StateError)
    else
      var next := op.(state := q.to,
                      completed := completed,
                      total := total,
                      source := if q.source.Some? then q.source else op.source,
                      target := if q.target.Some? then q.target else op.target);
      Success(if Final(q.to)
              then next.(claimedBy := None, claimToken := None, leaseValid := false)
              else next)
  }

  function Cancel(op: Operation): Result<Operation, Error> {
    if op.state in {Pending, RetryableFailed} then
      Success(op.(state := Cancelled, claimedBy := None, claimToken := None, leaseValid := false))
    else
      Failure(StateError)
  }

  function Retry(op: Operation): Result<Operation, Error> {
    if op.state == RetryableFailed && op.attempts < op.retryLimit then
      Success(op.(state := Pending, claimedBy := None, claimToken := None, leaseValid := false))
    else
      Failure(StateError)
  }

  // ---------------------------------------------------------------------------
  // Every history of one row
  // ---------------------------------------------------------------------------

  datatype Command =
    | Claiming(runner: string, token: string)
    | Renewal(claim: Claim)
    | Move(claim: Claim, request: Request)
    | Cancellation
    | Retrial
    | Lapse

  function After(op: Operation, r: Result<Operation, Error>): Operation {
    if r.Success? then r.value else op
  }

  function Apply(op: Operation, cmd: Command): Operation {
    match cmd
    case Claiming(runner, token) => After(op, TakeClaim(op, runner, token))
    case Renewal(c) => After(op, Renew(op, c))
    case Move(c, q) => After(op, Transition(op, c, q))
    case Cancellation => After(op, Cancel(op))
    case Retrial => After(op, Retry(op))
    case Lapse => op.(leaseValid := false)
  }

  function Run(op: Operation, cmds: seq<Command>): Operation {
    if cmds == [] then op else Apply(Run(op, cmds[..|cmds| - 1]), cmds[|cmds| - 1])
  }

  /** Whatever anybody does, fence, attempts and progress never go back, and a total once
      announced never changes. */
  lemma {:induction false} HistoryIsMonotone(op: Operation, cmds: seq<Command>)
    ensures Run(op, cmds).fence >= op.fence && Run(op, cmds).attempts >= op.attempts
    ensures Run(op, cmds).completed >= op.completed
    ensures op.total != 0 ==> Run(op, cmds).total == op.total
  {
    if cmds != [] { HistoryIsMonotone(op, cmds[..|cmds| - 1]); }
  }

  lemma {:induction false} RunConcat(op: Operation, a: seq<Command>, b: seq<Command>)
    ensures Run(op, a + b) == Run(Run(op, a), b)
  {
    if b == [] {
      assert a + b == a;
    } else {
      assert (a + b)[..|a + b| - 1] == a + b[..|b| - 1];
      RunConcat(op, a, b[..|b| - 1]);
    }
  }

  /** Once somebody else has claimed the operation, the old claim is refused for ever. */
  lemma {:induction false} SupersededClaimIsRefused(
      op: Operation, before: seq<Command>, after: seq<Command>, c: Claim, q: Request)
    requires c.fence < Run(op, before).fence
    ensures Transition(Run(op, before + after), c, q) == Failure(Fenced)
    ensures Renew(Run(op, before + after), c).Failure?
  {
    RunConcat(op, before, after);
    HistoryIsMonotone(Run(op, before), after);
  }

  /** How far an operation has come. */
  function Stage(s: State): nat {
    match s
    case Pending => 0
    case Claimed => 1
    case Running => 2
    case Verifying => 3
    case ReadyToCutover => 4
    case Completed => 5
    case _ => 6
  }

  /** From a working stage a transition goes to the next stage, stays (but not at CLAIMED) or
      fails; it names an error exactly when it fails, retryably only with attempts left; progress
      never goes back nor beyond a total that, once announced, never changes, and is complete
      from VERIFYING on. */
  predicate WellAsked(op: Operation, q: Request) {
    var (completed, total) := if q.progress.Some? then q.progress.value else (op.completed, op.total);
    && 1 <= Stage(op.state) <= 4
    && (if q.to == RetryableFailed then op.attempts < op.retryLimit && q.errorClass
        else if q.to == FinalFailed then q.errorClass
        else !q.errorClass && (Stage(q.to) == Stage(op.state) + 1
                               || (Stage(q.to) == Stage(op.state) && op.state != Claimed)))
    && op.completed <= completed <= total
    && (op.total == 0 || total == op.total)
    && (Stage(q.to) in {3, 4, 5} ==> completed == total)
  }

  /** A request succeeds exactly when it is well asked under the current claim, and then writes
      what it names; ending the operation gives the claim up. */
  lemma TransitionIff(op: Operation, c: Claim, q: Request)
    ensures Transition(op, c, q).Success? <==>
              && WellAsked(op, q) && op.leaseValid
              && op.claimedBy == Some(c.runner) && op.claimToken == Some(c.token) && op.fence == c.fence
    ensures Transition(op, c, q).Success? ==>
              var done := Transition(op, c, q).value;
              && done.state == q.to
              && (done.completed, done.total) == (if q.progress.Some? then q.progress.value
                                                  else (op.completed, op.total))
              && done.source == (if q.source.Some? then q.source else op.source)
              && done.target == (if q.target.Some? then q.target else op.target)
              && (done.fence, done.attempts, done.retryLimit) == (op.fence, op.attempts, op.retryLimit)
              && (done.claimedBy, done.claimToken, done.leaseValid)
                 == (if Stage(q.to) >= 5 then (None, None, false) else (op.claimedBy, op.claimToken, op.leaseValid))
  {
  }

  /** Nothing is done to a row except under its own unexpired claim. */
  lemma ActsOnlyUnderItsClaim(op: Operation, c: Claim, q: Request)
    requires Transition(op, c, q).Success? || Renew(op, c).Success?
    ensures op.claimedBy == Some(c.runner) && op.claimToken == Some(c.token) && op.fence == c.fence && op.leaseValid
    ensures Renew(op, c).Success? ==> op.state in {Claimed, Running, Verifying, ReadyToCutover}
  {
  }

  /** Once the lease has lapsed, every claim is refused until there is a new one. */
  lemma {:induction false} LapsedClaimIsRefused(op: Operation, cmds: seq<Command>, c: Claim, q: Request)
    requires !op.leaseValid && forall k | 0 <= k < |cmds| :: !cmds[k].Claiming?
    ensures Transition(Run(op, cmds), c, q) == Failure(Fenced) && Renew(Run(op, cmds), c).Failure?
    ensures !Run(op, cmds).leaseValid
  {
    if cmds != [] { LapsedClaimIsRefused(op, cmds[..|cmds| - 1], c, q); }
  }

  /** An end state is never left, not even under a claim that still looks good. */
  lemma {:induction false} EndsStay(op: Operation, cmds: seq<Command>)
    requires op.state in {Completed, FinalFailed, Cancelled}
    ensures Run(op, cmds).state == op.state && Run(op, cmds).attempts == op.attempts
    ensures Run(op, cmds).completed == op.completed && Run(op, cmds).fence == op.fence
  {
    if cmds != [] { EndsStay(op, cmds[..|cmds| - 1]); }
  }

  /** Neither completion nor cancellation nor a final failure is ever left again. */
  lemma {:induction false} EndsAreFinal(op: Operation, cmds: seq<Command>)
    requires op.state in {Completed, FinalFailed, Cancelled} && !op.leaseValid
    ensures Run(op, cmds) == op
  {
    if cmds != [] { EndsAreFinal(op, cmds[..|cmds| - 1]); }
  }
}
