/** Projection generations and the single runtime pointer
    (mesa_storage/projection_generations.py). */
module Generations {
  import opened Wrappers
  import opened Operations

  datatype Lifecycle = Staging | Active | Retained | GenerationFailed

  datatype Generation = Generation(
    lifecycle: Lifecycle,
    createdBy: string,
    manifestHash: Option<string>,
    providerManifest: string)

  datatype Runtime = Runtime(active: string, previous: Option<string>, fence: nat)

  datatype Db = Db(
    generations: map<string, Generation>,
    runtime: Runtime,
    operations: map<string, Operation>)

  datatype GenerationError = Invalid | Missing | Conflict | FencedOut

  predicate HasLifecycle(db: Db, g: string, l: Lifecycle) {
    g in db.generations && db.generations[g].lifecycle == l
  }

  /** Exactly one generation is ACTIVE and it is the runtime's; the rollback
      generation, when there is one, is another generation and is RETAINED. */
  ghost predicate Coherent(db: Db) {
    && HasLifecycle(db, db.runtime.active, Active)
    && (forall g | g in db.generations ::
          db.generations[g].lifecycle == Active ==> g == db.runtime.active)
    && (db.runtime.previous.Some? ==>
          && db.runtime.previous.value != db.runtime.active
          && HasLifecycle(db, db.runtime.previous.value, Retained))
  }

  function WithLifecycle(db: Db, g: string, l: Lifecycle): Db
    requires g in db.generations
  {
    db.(generations := db.generations[g := db.generations[g].(lifecycle := l)])
  }

  /** The claim is good for `opId` and the operation is in state `s`. */
  predicate Fence(db: Db, opId: string, c: Claim, s: State) {
    opId in db.operations && db.operations[opId].state == s && Owns(db.operations[opId], c)
  }

  datatype StagingRequest = StagingRequest(
    opId: string, generation: string, claim: Claim, manifestHash: Option<string>, providerManifest: string)

  predicate SameIdentity(g: Generation, q: StagingRequest) {
    g.createdBy == q.opId && g.manifestHash == q.manifestHash && g.providerManifest == q.providerManifest
  }

  /** What create_staging leaves behind when it succeeds: nothing but the requested
      generation changes, and that one is STAGING under the caller's identity. */
  ghost predicate StagingCreated(db: Db, q: StagingRequest, db': Db) {
    && db' == db.(generations := db'.generations)
    && db'.generations.Keys == db.generations.Keys + {q.generation}
    && (forall g | g in db.generations && g != q.generation :: db'.generations[g] == db.generations[g])
    && db'.generations[q.generation] == Generation(Staging, q.opId, q.manifestHash, q.providerManifest)
  }

  predicate CanStage(db: Db, q: StagingRequest) {
    && q.generation != "legacy"
    && Fence(db, q.opId, q.claim, Running)
    && (q.generation in db.generations ==>
          && SameIdentity(db.generations[q.generation], q)
          && db.generations[q.generation].lifecycle in {Staging, GenerationFailed})
  }

  /** The guard under which the pointer may move from `expected` to `target`. */
  predicate CanActivate(db: Db, opId: string, c: Claim, target: string, expected: string, runtimeFence: nat) {
    && Fence(db, opId, c, ReadyToCutover)
    && db.operations[opId].target == Some(target)
    && db.runtime.active == expected
    && db.runtime.fence == runtimeFence
    && HasLifecycle(db, expected, Active)
    && HasLifecycle(db, target, Staging)
  }

  function Activated(db: Db, target: string): Db
    requires target in db.generations && db.runtime.active in db.generations
  {
    WithLifecycle(WithLifecycle(db, db.runtime.active, Retained), target, Active)
    .(runtime := Runtime(target, Some(db.runtime.active), db.runtime.fence + 1))
  }

  predicate CanRollback(db: Db, opId: string, c: Claim, expected: string, runtimeFence: nat) {
    && Fence(db, opId, c, ReadyToCutover)
    && db.operations[opId].target == Some(expected)
    && db.runtime.previous.Some?
    && db.runtime.active == expected
    && db.runtime.fence == runtimeFence
    && HasLifecycle(db, expected, Active)
    && HasLifecycle(db, db.runtime.previous.value, Retained)
  }

  function RolledBack(db: Db): Db
    requires db.runtime.active in db.generations
    requires db.runtime.previous.Some? && db.runtime.previous.value in db.generations
  {
    WithLifecycle(WithLifecycle(db, db.runtime.active, GenerationFailed), db.runtime.previous.value, Active)
    .(runtime := Runtime(db.runtime.previous.value, None, db.runtime.fence + 1))
  }

  /** The SQLite file the repository owns; each method body is one transaction, and an
      exception restores the state found at its start. */
  class ProjectionGenerationRepository {
    var generations: map<string, Generation>
    var runtime: Runtime
    var operations: map<string, Operation>

    constructor (db: Db)
      ensures Contents() == db
    {
      generations, runtime, operations := db.generations, db.runtime, db.operations;
    }

    function Contents(): Db
      reads this
    {
      Db(generations, runtime, operations)
    }

    /** Compare-and-set on a lifecycle column: UPDATE ... WHERE id = ? AND state = ?. */
    method UpdateLifecycle(g: string, from: Lifecycle, to: Lifecycle)
      modifies this`generations
      ensures generations == if HasLifecycle(old(Contents()), g, from)
                             then old(generations)[g := old(generations)[g].(lifecycle := to)]
                             else old(generations)
    {
      if g in generations && generations[g].lifecycle == from {
        generations := generations[g := generations[g].(lifecycle := to)];
      }
    }

    /** Succeeds exactly under `CanStage`.  The two guards on a FAILED row (neither active
        nor previous) are part of the body; that they never fire is the last clause. */
    method CreateStaging(q: StagingRequest) returns (o: Outcome<GenerationError>)
      requires Coherent(Contents())
      modifies this
      ensures Coherent(Contents())
      ensures o.Pass? <==> CanStage(old(Contents()), q)
      ensures o.Pass? ==> StagingCreated(old(Contents()), q, Contents())
      ensures o.Fail? ==> Contents() == old(Contents())
      ensures Commits(old(Contents()), Stage(q), Contents())
    {
      if q.generation == "legacy" { return Fail(Invalid); }
      if q.opId !in operations { return Fail(Missing); }
      if operations[q.opId].state != Running || !Owns(operations[q.opId], q.claim) {
        return Fail(FencedOut);
      }
      if q.generation in generations {
        var existing := generations[q.generation];
        if !SameIdentity(existing, q) { return Fail(Conflict); }
        if existing.lifecycle == GenerationFailed {
          if runtime.active == q.generation || runtime.previous == Some(q.generation) {
            return Fail(Conflict);
          }
          UpdateLifecycle(q.generation, GenerationFailed, Staging);
          return Pass;
        }
        if existing.lifecycle != Staging { return Fail(Conflict); }
        return Pass;
      }
      generations := generations[q.generation := Generation(Staging, q.opId, q.manifestHash, q.providerManifest)];
      return Pass;
    }

    /** Retire the active generation, promote the staged one, then move the pointer under
        its own compare-and-set, whose row count can no longer differ from one. */
    method Activate(target: string, opId: string, c: Claim, expected: string, runtimeFence: nat)
      returns (o: Outcome<GenerationError>)
      requires Coherent(Contents())
      modifies this
      ensures Coherent(Contents())
      ensures o.Pass? <==> CanActivate(old(Contents()), opId, c, target, expected, runtimeFence)
      ensures o.Pass? ==> Contents() == Activated(old(Contents()), target)
      ensures o.Fail? ==> Contents() == old(Contents())
      ensures Commits(old(Contents()), Command.Move(target, opId, c, expected, runtimeFence), Contents())
    {
      if opId !in operations { return Fail(Missing); }
      if operations[opId].state != ReadyToCutover || !Owns(operations[opId], c) {
        return Fail(FencedOut);
      }
      if operations[opId].target != Some(target) { return Fail(Conflict); }
      if runtime.active != expected || runtime.fence != runtimeFence { return Fail(FencedOut); }
      if !(expected in generations && generations[expected].lifecycle == Active)
         || !(target in generations && generations[target].lifecycle == Staging) {
        return Fail(Conflict);
      }
      UpdateLifecycle(expected, Active, Retained);
      UpdateLifecycle(target, Staging, Active);
      if !(runtime.active == expected && runtime.fence == runtimeFence && Owns(operations[opId], c)) {
        assert false;
      }
      runtime := Runtime(target, Some(expected), runtime.fence + 1);
      return Pass;
    }

    method Rollback(opId: string, c: Claim, expected: string, runtimeFence: nat)
      returns (o: Outcome<GenerationError>)
      requires Coherent(Contents())
      modifies this
      ensures Coherent(Contents())
      ensures o.Pass? <==> CanRollback(old(Contents()), opId, c, expected, runtimeFence)
      ensures o.Pass? ==> Contents() == RolledBack(old(Contents()))
      ensures o.Fail? ==> Contents() == old(Contents())
      ensures Commits(old(Contents()), Undo(opId, c, expected, runtimeFence), Contents())
    {
      if opId !in operations { return Fail(Missing); }
      if operations[opId].state != ReadyToCutover || !Owns(operations[opId], c) {
        return Fail(FencedOut);
      }
      if operations[opId].target != Some(expected) { return Fail(Conflict); }
      if runtime.previous.None? { return Fail(Conflict); }
      var retained := runtime.previous.value;
      if runtime.active != expected || runtime.fence != runtimeFence { return Fail(FencedOut); }
      if !(expected in generations && generations[expected].lifecycle == Active)
         || !(retained in generations && generations[retained].lifecycle == Retained) {
        return Fail(Conflict);
      }
      UpdateLifecycle(expected, Active, GenerationFailed);
      UpdateLifecycle(retained, Retained, Active);
      if !(runtime.active == expected && runtime.previous == Some(retained)
           && runtime.fence == runtimeFence && Owns(operations[opId], c)) {
        assert false;
      }
      runtime := Runtime(retained, None, runtime.fence + 1);
      return Pass;
    }
  }

  // ---------------------------------------------------------------------------
  // Every interleaving
  // ---------------------------------------------------------------------------

  /** One committed transaction by anybody.  `Operate` is any change at all to the
      operation rows: claims, renewals, lapses, transitions, submissions. */
  datatype Command =
    | Stage(q: StagingRequest)
    | Move(target: string, opId: string, claim: Claim, expected: string, runtimeFence: nat)
    | Undo(opId: string, claim: Claim, expected: string, runtimeFence: nat)
    | Operate(operations: map<string, Operation>)

  function Staged(db: Db, q: StagingRequest): Db {
    db.(generations := db.generations[q.generation :=
        Generation(Staging, q.opId, q.manifestHash, q.providerManifest)])
  }

  function Apply(db: Db, cmd: Command): Db {
    match cmd
    case Stage(q) => if CanStage(db, q) then Staged(db, q) else db
    case Move(t, o, c, e, f) => if CanActivate(db, o, c, t, e, f) then Activated(db, t) else db
    case Undo(o, c, e, f) => if CanRollback(db, o, c, e, f) then RolledBack(db) else db
    case Operate(ops) => db.(operations := ops)
  }

  /** What a call to the repository does to the file is what its command does. */
  predicate Commits(db: Db, cmd: Command, db': Db) {
    db' == Apply(db, cmd)
  }

  function Run(db: Db, cmds: seq<Command>): Db {
    if cmds == [] then db else Apply(Run(db, cmds[..|cmds| - 1]), cmds[|cmds| - 1])
  }

  lemma StageKeepsCoherent(db: Db, q: StagingRequest)
    requires Coherent(db) && CanStage(db, q)
    ensures Coherent(Staged(db, q))
  {
  }

  lemma MoveKeepsCoherent(db: Db, target: string)
    requires Coherent(db) && HasLifecycle(db, target, Staging)
    ensures Coherent(Activated(db, target))
  {
  }

  lemma UndoKeepsCoherent(db: Db)
    requires Coherent(db) && db.runtime.previous.Some?
    ensures Coherent(RolledBack(db))
  {
  }

  lemma ApplyKeepsCoherent(db: Db, cmd: Command)
    requires Coherent(db)
    ensures Coherent(Apply(db, cmd)) && Apply(db, cmd).runtime.fence >= db.runtime.fence
    ensures Apply(db, cmd).runtime.fence == db.runtime.fence ==> Apply(db, cmd).runtime == db.runtime
  {
    match cmd
    case Stage(q) => if CanStage(db, q) { StageKeepsCoherent(db, q); }
    case Move(t, o, c, e, f) => if CanActivate(db, o, c, t, e, f) { MoveKeepsCoherent(db, t); }
    case Undo(o, c, e, f) => if CanRollback(db, o, c, e, f) { UndoKeepsCoherent(db); }
    case Operate(_) =>
  }

  /** Coherence survives every interleaving; the fence never goes back, and while it
      stands still the pointer has not moved. */
  lemma {:induction false} EveryInterleavingIsCoherent(db: Db, cmds: seq<Command>)
    requires Coherent(db)
    ensures Coherent(Run(db, cmds))
    ensures Run(db, cmds).runtime.fence >= db.runtime.fence
    ensures Run(db, cmds).runtime.fence == db.runtime.fence ==> Run(db, cmds).runtime == db.runtime
  {
    if cmds != [] {
      EveryInterleavingIsCoherent(db, cmds[..|cmds| - 1]);
      ApplyKeepsCoherent(Run(db, cmds[..|cmds| - 1]), cmds[|cmds| - 1]);
    }
  }

  lemma {:induction false} RunConcat(db: Db, a: seq<Command>, b: seq<Command>)
    ensures Run(db, a + b) == Run(Run(db, a), b)
  {
    if b == [] {
      assert a + b == a;
    } else {
      assert (a + b)[..|a + b| - 1] == a + b[..|b| - 1];
      RunConcat(db, a, b[..|b| - 1]);
    }
  }

  /** Every committed transaction of a run takes effect, in order. */
  lemma RunTakesEveryCommand(db: Db, cmds: seq<Command>, cmd: Command)
    ensures Run(db, []) == db && Run(db, cmds + [cmd]) == Apply(Run(db, cmds), cmd)
  {
    assert (cmds + [cmd])[..|cmds|] == cmds;
  }

  /** No ABA: if the pointer changed at any moment after a runner read it, the fence the
      runner read is refused for ever, whatever generation is active again by then. */
  lemma {:induction false} StalePointerIsRefused(
      db: Db, before: seq<Command>, after: seq<Command>,
      target: string, opId: string, c: Claim, expected: string)
    requires Coherent(db)
    requires Run(db, before).runtime != db.runtime
    ensures var later := Run(db, before + after);
      && !CanActivate(later, opId, c, target, expected, db.runtime.fence)
      && !CanRollback(later, opId, c, expected, db.runtime.fence)
  {
    RunConcat(db, before, after);
    EveryInterleavingIsCoherent(db, before);
    EveryInterleavingIsCoherent(Run(db, before), after);
  }

  /** In every reachable table a FAILED generation is neither active nor the rollback
      generation, so restaging it is refused only for a fence or an identity reason:
      the "still retained" rejection is unreachable. */
  lemma {:induction false} FailedGenerationIsAlwaysRestageable(db: Db, cmds: seq<Command>, q: StagingRequest)
    requires Coherent(db)
    requires HasLifecycle(Run(db, cmds), q.generation, GenerationFailed)
    ensures Run(db, cmds).runtime.active != q.generation
    ensures Run(db, cmds).runtime.previous != Some(q.generation)
    ensures q.generation != "legacy" && Fence(Run(db, cmds), q.opId, q.claim, Running)
            && SameIdentity(Run(db, cmds).generations[q.generation], q)
            ==> StagingCreated(Run(db, cmds), q, Apply(Run(db, cmds), Stage(q)))
  {
    EveryInterleavingIsCoherent(db, cmds);
  }

  /** Rolling back an activation restores the active generation but not the pointer row:
      the fence has advanced twice, the rollback slot is empty and the target is FAILED. */
  lemma RollbackUndoesActivation(db: Db, opId: string, c: Claim, target: string)
    requires Coherent(db)
    requires CanActivate(db, opId, c, target, db.runtime.active, db.runtime.fence)
    ensures CanRollback(Activated(db, target), opId, c, target, db.runtime.fence + 1)
    ensures RolledBack(Activated(db, target))
            == WithLifecycle(db, target, GenerationFailed)
               .(runtime := Runtime(db.runtime.active, None, db.runtime.fence + 2))
  {
    var back := RolledBack(Activated(db, target)).generations;
    var want := WithLifecycle(db, target, GenerationFailed).generations;
    assert back.Keys == want.Keys;
    assert forall g | g in want :: back[g] == want[g];
  }
}
