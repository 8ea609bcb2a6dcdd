/** The offline Kùzu artifact swap: a SQLite journal and same-filesystem renames, either of
    which may be the last thing the process does (mesa_storage/kuzu_migration.py). */
module KuzuMigration {
  import opened Wrappers

  /** Artifacts are numbered in the order in which builders create them. */
  type Artifact = nat

  /** The only paths the coordinator ever names; `PathNames` shows that they are distinct
      on disk. */
  datatype Path =
    | Live
    | Staging(id: string, token: nat)
    | Rollback(id: string, token: nat)
    | RolledForward(id: string, token: nat)

  datatype JournalState =
    | Building | Staged | Validated | Swapping | SwapRecoveryRequired
    | Promoted | Failed | RollingBack | RolledBack

  datatype Record = Record(
    fingerprint: string,
    version: string,
    state: JournalState,
    token: nat,
    staging: Option<Path>,
    backup: Option<Path>)

  datatype Error = Crashed | SystemError | InvalidArgument | StateError | ResumeRequired | BuildError

  /** What the environment does to the next effect.  A process whose fates have run out
      is dead. */
  datatype Fate = Done | Refused

  /** The first `n` effects happen. */
  predicate Happen(fates: seq<Fate>, n: nat) {
    |fates| >= n && forall i | 0 <= i < n :: fates[i] == Done
  }

  function Rest(fates: seq<Fate>): seq<Fate> {
    if fates == [] then [] else fates[1..]
  }

  /** What the caller's builder does before it returns or raises. */
  datatype Build = Creates | CreatesThenYields | Yields | CreatesThenRaises | Raises | Nothing

  datatype Verdict = Accepts | Interrupts | Rejects

  type Filesystem = map<Path, Artifact>

  /** os.replace: it overwrites whatever is at `to`. */
  function Replace(fs: Filesystem, from: Path, to: Path): Filesystem
    requires from in fs
  {
    (fs - {from})[to := fs[from]]
  }

  function Swapped(fs: Filesystem, id: string, token: nat): Filesystem
    requires Staging(id, token) in fs
  {
    Replace(if Live in fs then Replace(fs, Live, Rollback(id, token)) else fs, Staging(id, token), Live)
  }

  function Restored(fs: Filesystem, id: string, token: nat): Filesystem
    requires Live in fs && Rollback(id, token) in fs
  {
    Replace(Replace(fs, Live, RolledForward(id, token)), Rollback(id, token), Live)
  }

  predicate At(fs: Filesystem, p: Path, a: Artifact) {
    p in fs && fs[p] == a
  }

  ghost predicate Holds(fs: Filesystem, a: Artifact) {
    exists p :: At(fs, p, a)
  }

  /** Nothing is lost or duplicated: the artifacts on disk are exactly those that existed
      or were built, each at one path. */
  ghost predicate Conserved(fs: Filesystem, next: Artifact) {
    && (forall a: Artifact :: Holds(fs, a) <==> a < next)
    && (forall a, p, q :: At(fs, p, a) && At(fs, q, a) ==> p == q)
  }

  lemma ReplaceConserves(fs: Filesystem, next: Artifact, from: Path, to: Path)
    requires Conserved(fs, next) && from in fs && to !in fs
    ensures Conserved(Replace(fs, from, to), next)
  {
    var fs' := Replace(fs, from, to);
    forall a: Artifact ensures Holds(fs', a) <==> a < next {
      if p :| At(fs', p, a) { assert At(fs, if p == to then from else p, a); assert Holds(fs, a); }
      if a < next {
        assert Holds(fs, a);
        var p :| At(fs, p, a);
        assert At(fs', if p == from then to else p, a);
      }
    }
    forall a, p, q | At(fs', p, a) && At(fs', q, a) ensures p == q {
      assert At(fs, if p == to then from else p, a) && At(fs, if q == to then from else q, a);
    }
  }

  lemma BuildConserves(fs: Filesystem, next: Artifact, path: Path)
    requires Conserved(fs, next) && path !in fs
    ensures Conserved(fs[path := next], next + 1)
  {
    var fs' := fs[path := next];
    forall a: Artifact ensures Holds(fs', a) <==> a < next + 1 {
      if p :| At(fs', p, a) { assert p == path || (At(fs, p, a) && Holds(fs, a)); }
      if a == next {
        assert At(fs', path, a);
      } else if a < next {
        assert Holds(fs, a);
        var p :| At(fs, p, a);
        assert At(fs', p, a);
      }
    }
    forall a, p, q | At(fs', p, a) && At(fs', q, a) ensures p == q {
      assert p == path || (At(fs, p, a) && Holds(fs, a));
      assert q == path || (At(fs, q, a) && Holds(fs, a));
    }
  }

  predicate RecordOk(id: string, r: Record, fs: Filesystem, trusted: set<Artifact>) {
    && (r.state != RolledBack ==> r.staging == Some(Staging(id, r.token)))
    && (r.state in {Validated, Swapping, SwapRecoveryRequired, Promoted, RollingBack} ==>
          r.backup == Some(Rollback(id, r.token)))
    && (r.state in {Validated, Swapping, SwapRecoveryRequired} && Staging(id, r.token) in fs ==>
          fs[Staging(id, r.token)] in trusted)
  }

  /** Only a rollback touches rolled-forward paths. */
  predicate SameForward(before: Filesystem, after: Filesystem) {
    && (forall p | p in after && p.RolledForward? :: p in before && before[p] == after[p])
    && (forall p | p in before && p.RolledForward? :: p in after)
  }

  /** The artifact that a run of migration `id` shows to its validator: the staged one the
      journal has for it, or the one it is about to build. */
  predicate Offered(
      fs: Filesystem, journal: map<string, Record>, next: Artifact, id: string, build: Build, a: Artifact)
  {
    if id in journal then journal[id].state == Staged && At(fs, Staging(id, journal[id].token), a)
    else build == Creates && a == next
  }

  datatype Command =
    | Migrate(id: string, fingerprint: string, version: string, build: Build, verdict: Verdict, fates: seq<Fate>)
    | Undo(id: string, fates: seq<Fate>)

  /** What is on disk between two processes. */
  datatype Disk = Disk(fs: Filesystem, journal: map<string, Record>, next: Artifact)

  function FirstDisk(live: bool): Disk {
    Disk(if live then map[Live := 0] else map[], map[], if live then 1 else 0)
  }

  /** The fencing token of the next migration: one more than the highest journalled one. */
  predicate IsNext(journal: map<string, Record>, token: nat) {
    && token >= 1
    && (forall id | id in journal :: journal[id].token < token)
    && (token == 1 || exists id :: id in journal && journal[id].token == token - 1)
  }

  lemma {:induction false} NextExists(journal: map<string, Record>)
    ensures exists token: nat :: IsNext(journal, token)
    decreases |journal|
  {
    if journal == map[] {
      assert IsNext(journal, 1);
    } else {
      var id :| id in journal;
      var rest := journal - {id};
      assert rest.Keys == journal.Keys - {id};
      NextExists(rest);
      var t: nat :| IsNext(rest, t);
      assert forall other | other in journal :: other == id || other in rest;
      assert IsNext(journal, if journal[id].token < t then t else journal[id].token + 1);
    }
  }

  ghost function NextToken(journal: map<string, Record>): (token: nat)
    ensures IsNext(journal, token)
  {
    NextExists(journal);
    var token: nat :| IsNext(journal, token);
    token
  }

  lemma NextIsUnique(journal: map<string, Record>, token: nat)
    requires IsNext(journal, token)
    ensures token == NextToken(journal)
  {
  }

  function Written(d: Disk, id: string, r: Record): Disk {
    d.(journal := d.journal[id := r])
  }

  /** What a builder that ends normally or by raising leaves in the journal. */
  function Settled(build: Build): JournalState {
    if build in {Creates, CreatesThenYields} then Staged else Failed
  }

  predicate Makes(build: Build) {
    build in {Creates, CreatesThenYields, CreatesThenRaises}
  }

  function AfterBuild(d: Disk, id: string, build: Build, fates: seq<Fate>): Disk
    requires id in d.journal
  {
    var r := d.journal[id];
    var state := if |fates| < 2 || fates[1] == Refused then Building
                 else if Happen(fates, 1) then Settled(build) else Failed;
    var made := if Happen(fates, 1) && Makes(build)
                then d.(fs := d.fs[Staging(id, r.token) := d.next], next := d.next + 1) else d;
    Written(made, id, r.(state := state))
  }

  function AfterStage(
      d: Disk, id: string, fingerprint: string, version: string, build: Build, token: nat, fates: seq<Fate>): Disk
  {
    var path := Staging(id, token);
    if path in d.fs || !Happen(fates, 1) then d
    else
      var row := Record(fingerprint, version, Building, token, Some(path), None);
      AfterBuild(Written(d, id, row), id, build, fates[1..])
  }

  /** The disk on which a new migration meets its validator. */
  ghost function Begun(d: Disk, cmd: Command): Disk
    requires cmd.Migrate?
  {
    AfterStage(d, cmd.id, cmd.fingerprint, cmd.version, cmd.build, NextToken(d.journal), cmd.fates)
  }

  /** The renames of a promotion. */
  function Lead(fs: Filesystem): nat {
    if Live in fs then 2 else 1
  }

  /** Effect `n` is refused, and the process lives to journal that. */
  predicate Balks(fates: seq<Fate>, n: nat) {
    Happen(fates, n) && |fates| >= n + 2 && fates[n] == Refused && fates[n + 1] == Done
  }

  predicate Promotable(d: Disk, id: string, token: nat) {
    Staging(id, token) in d.fs && Rollback(id, token) !in d.fs
  }

  /** The two renames of a promotion, cut off where the fates run out. */
  function Moved(fs: Filesystem, id: string, token: nat, fates: seq<Fate>): Filesystem
    requires Staging(id, token) in fs
  {
    if Happen(fates, Lead(fs)) then Swapped(fs, id, token)
    else if Live in fs && Happen(fates, 1) then Replace(fs, Live, Rollback(id, token))
    else fs
  }

  function Marked(fs: Filesystem, fates: seq<Fate>): JournalState {
    if Balks(fates, Lead(fs) - 1) then SwapRecoveryRequired else Swapping
  }

  function AfterPromote(d: Disk, id: string, fates: seq<Fate>): Disk
    requires id in d.journal
  {
    var r := d.journal[id];
    if !Promotable(d, id, r.token) || !Happen(fates, 1) then d
    else
      var state := if Happen(fates[1..], Lead(d.fs) + 1) then Promoted else Marked(d.fs, fates[1..]);
      Written(d.(fs := Moved(d.fs, id, r.token, fates[1..])), id, r.(state := state))
  }

  function AfterValidate(d: Disk, id: string, verdict: Verdict, fates: seq<Fate>): Disk
    requires id in d.journal
  {
    var r := d.journal[id];
    if !Happen(fates, 1) || verdict == Interrupts then d
    else if verdict == Rejects then Written(d, id, r.(state := Failed))
    else AfterPromote(Written(d, id, r.(state := Validated, backup := Some(Rollback(id, r.token)))), id, fates[1..])
  }

  /** Both renames of a swap with something live are done. */
  predicate SwappedOver(fs: Filesystem, id: string, token: nat) {
    Live in fs && Staging(id, token) !in fs && Rollback(id, token) in fs
  }

  /** Only the first one is. */
  predicate HalfSwapped(fs: Filesystem, id: string, token: nat) {
    Live !in fs && Staging(id, token) in fs && Rollback(id, token) in fs
  }

  function AfterRecovery(d: Disk, id: string, fates: seq<Fate>): Disk
    requires id in d.journal
  {
    var r := d.journal[id];
    var renamed := if HalfSwapped(d.fs, id, r.token) && Happen(fates, 1)
                   then d.(fs := Replace(d.fs, Staging(id, r.token), Live)) else d;
    var last := if SwappedOver(d.fs, id, r.token) then 1 else 2;
    if SwappedOver(renamed.fs, id, r.token) && Happen(fates, last)
    then Written(renamed, id, r.(state := Promoted)) else renamed
  }

  predicate Named(cmd: Command) {
    cmd.Migrate? && cmd.id != "" && cmd.fingerprint != "" && cmd.version != ""
  }

  /** The journal binds an id to one fingerprint and version. */
  predicate Matches(d: Disk, cmd: Command) {
    cmd.Migrate? && cmd.id in d.journal
    && d.journal[cmd.id].fingerprint == cmd.fingerprint && d.journal[cmd.id].version == cmd.version
  }

  predicate Resumable(d: Disk, id: string) {
    id in d.journal && d.journal[id].state == Staged && Staging(id, d.journal[id].token) in d.fs
  }

  ghost function AfterMigrate(d: Disk, cmd: Command): Disk
    requires cmd.Migrate?
  {
    if !Named(cmd) then d
    else if cmd.id !in d.journal then
      var staged := Begun(d, cmd);
      if cmd.build == Creates && Happen(cmd.fates, 3) && Resumable(staged, cmd.id)
      then AfterValidate(staged, cmd.id, cmd.verdict, cmd.fates[3..]) else staged
    else if !Matches(d, cmd) then d
    else if d.journal[cmd.id].state == Swapping then AfterRecovery(d, cmd.id, cmd.fates)
    else if Resumable(d, cmd.id) then AfterValidate(d, cmd.id, cmd.verdict, cmd.fates)
    else d
  }

  /** A known migration that a run only reports: it is bound to other arguments, its swap is
      ambiguous, or nothing of it is left to resume or to keep. */
  predicate Stuck(d: Disk, cmd: Command) {
    && Named(cmd) && cmd.id in d.journal
    && var r := d.journal[cmd.id];
    || !Matches(d, cmd)
    || (r.state == Swapping && !SwappedOver(d.fs, cmd.id, r.token) && !HalfSwapped(d.fs, cmd.id, r.token))
    || (r.state == Promoted && Live !in d.fs)
    || (r.state !in {Swapping, Promoted} && !Resumable(d, cmd.id))
  }

  /** The guard of a rollback. */
  predicate Undoable(d: Disk, id: string) {
    && id in d.journal && d.journal[id].state == Promoted
    && Live in d.fs && Rollback(id, d.journal[id].token) in d.fs
    && RolledForward(id, d.journal[id].token) !in d.fs
  }

  /** What a rollback leaves on disk: nothing moves before its journal entry, and then one
      rename or both are done. */
  function AfterUndo(d: Disk, id: string, fates: seq<Fate>): Disk {
    if !Undoable(d, id) || !Happen(fates, 1) then d
    else
      var r := d.journal[id];
      var to := RolledForward(id, r.token);
      var fs := if !Happen(fates, 2) then d.fs
                else if !Happen(fates, 3) then Replace(d.fs, Live, to)
                else Restored(d.fs, id, r.token);
      Written(d.(fs := fs), id,
              if Happen(fates, 4) then r.(state := RolledBack, staging := None, backup := Some(to))
              else r.(state := RollingBack))
  }

  /** What one process leaves on disk, wherever it dies. */
  ghost function After(d: Disk, cmd: Command): Disk {
    if cmd.Undo? then AfterUndo(d, cmd.id, cmd.fates) else AfterMigrate(d, cmd)
  }

  /** The effects that a migration still has to make to end PROMOTED, if it can. */
  ghost function Needed(d: Disk, cmd: Command): Option<nat>
    requires cmd.Migrate?
  {
    if !Named(cmd) then None
    else if cmd.id !in d.journal then
      var token := NextToken(d.journal);
      if cmd.build == Creates && cmd.verdict == Accepts
         && Staging(cmd.id, token) !in d.fs && Rollback(cmd.id, token) !in d.fs
      then Some(Lead(d.fs) + 6) else None
    else if !Matches(d, cmd) then None
    else
      var r := d.journal[cmd.id];
      if r.state == Promoted then (if Live in d.fs then Some(0) else None)
      else if r.state == Swapping then
        if SwappedOver(d.fs, cmd.id, r.token) then Some(1)
        else if HalfSwapped(d.fs, cmd.id, r.token) then Some(2)
        else None
      else if r.state == Staged && cmd.verdict == Accepts && Promotable(d, cmd.id, r.token) then Some(Lead(d.fs) + 3)
      else None
  }

  predicate OthersKept(before: map<string, Record>, after: map<string, Record>, id: string) {
    && after.Keys <= before.Keys + {id}
    && forall other | other in before && other != id :: other in after && after[other] == before[other]
  }

  /** How a migration that succeeds has left the disk: a new or a staged one by exactly one
      swap, an interrupted swap by the rename that was missing, a promoted one as it was. */
  ghost predicate Finished(d: Disk, cmd: Command, d': Disk) {
    && cmd.Migrate? && cmd.id in d'.journal
    && var (id, now) := (cmd.id, d'.journal[cmd.id]);
    && now.state == Promoted && Live in d'.fs
    && (id !in d.journal ==>
          && cmd.build == Creates && cmd.verdict == Accepts
          && Staging(id, now.token) !in d.fs && Rollback(id, now.token) !in d.fs
          && IsNext(d.journal, now.token) && d'.next == d.next + 1
          && d'.fs == Swapped(d.fs[Staging(id, now.token) := d.next], id, now.token))
    && (id in d.journal ==>
          var was := d.journal[id];
          || (was.state == Promoted && d' == d)
          || (was.state == Swapping && now == was.(state := Promoted)
              && SwappedOver(d.fs, id, was.token) && d'.fs == d.fs)
          || (was.state == Swapping && now == was.(state := Promoted)
              && HalfSwapped(d.fs, id, was.token) && d'.fs == Replace(d.fs, Staging(id, was.token), Live))
          || (was.state == Staged && cmd.verdict == Accepts
              && now == was.(state := Promoted, backup := Some(Rollback(id, was.token)))
              && Promotable(d, id, was.token) && d'.fs == Swapped(d.fs, id, was.token)))
  }

  predicate Suffices(needed: Option<nat>, fates: seq<Fate>) {
    needed.Some? && Happen(fates, needed.value)
  }

  lemma PromoteFinishes(d: Disk, id: string, fates: seq<Fate>)
    requires id in d.journal && Promotable(d, id, d.journal[id].token) && Happen(fates, Lead(d.fs) + 2)
    ensures AfterPromote(d, id, fates).fs == Swapped(d.fs, id, d.journal[id].token)
    ensures AfterPromote(d, id, fates).journal == d.journal[id := d.journal[id].(state := Promoted)]
  {
    assert Happen(fates[1..], Lead(d.fs) + 1);
  }

  lemma ValidateFinishes(d: Disk, id: string, fates: seq<Fate>)
    requires id in d.journal && Promotable(d, id, d.journal[id].token) && Happen(fates, Lead(d.fs) + 3)
    ensures var r := d.journal[id];
            && AfterValidate(d, id, Accepts, fates).fs == Swapped(d.fs, id, r.token)
            && AfterValidate(d, id, Accepts, fates).journal
               == d.journal[id := r.(state := Promoted, backup := Some(Rollback(id, r.token)))]
  {
    var r := d.journal[id];
    var valid := Written(d, id, r.(state := Validated, backup := Some(Rollback(id, r.token))));
    PromoteFinishes(valid, id, fates[1..]);
  }

  lemma Finishes(d: Disk, cmd: Command)
    requires cmd.Migrate? && Suffices(Needed(d, cmd), cmd.fates)
    ensures Finished(d, cmd, After(d, cmd))
  {
    if cmd.id !in d.journal {
      var token := NextToken(d.journal);
      var staged := Begun(d, cmd);
      assert staged.fs == d.fs[Staging(cmd.id, token) := d.next];
      ValidateFinishes(staged, cmd.id, cmd.fates[3..]);
    } else if d.journal[cmd.id].state == Staged {
      ValidateFinishes(d, cmd.id, cmd.fates);
    }
  }

  lemma Promoting(d: Disk, id: string, fates: seq<Fate>)
    requires id in d.journal
    ensures var d' := AfterPromote(d, id, fates);
            SameForward(d.fs, d'.fs) && OthersKept(d.journal, d'.journal, id) && d'.next == d.next && id in d'.journal
  {
  }

  lemma Validating(d: Disk, id: string, verdict: Verdict, fates: seq<Fate>)
    requires id in d.journal
    ensures var d' := AfterValidate(d, id, verdict, fates);
            SameForward(d.fs, d'.fs) && OthersKept(d.journal, d'.journal, id) && d'.next == d.next && id in d'.journal
  {
    var r := d.journal[id];
    var valid := Written(d, id, r.(state := Validated, backup := Some(Rollback(id, r.token))));
    if Happen(fates, 1) { Promoting(valid, id, fates[1..]); }
  }

  lemma Beginning(d: Disk, cmd: Command)
    requires cmd.Migrate?
    ensures var d' := Begun(d, cmd);
            SameForward(d.fs, d'.fs) && OthersKept(d.journal, d'.journal, cmd.id) && d'.next >= d.next
  {
  }

  lemma PromotedAfterBoth(d: Disk, id: string, fates: seq<Fate>)
    requires id in d.journal && d.journal[id].state == Validated
    ensures AfterPromote(d, id, fates).journal[id].state == Promoted <==>
              Promotable(d, id, d.journal[id].token) && Happen(fates, Lead(d.fs) + 2)
  {
  }

  lemma PromotedAfterAll(d: Disk, id: string, verdict: Verdict, fates: seq<Fate>)
    requires id in d.journal && d.journal[id].state == Staged
    requires AfterValidate(d, id, verdict, fates).journal[id].state == Promoted
    ensures verdict == Accepts && Promotable(d, id, d.journal[id].token) && Happen(fates, Lead(d.fs) + 3)
  {
    var r := d.journal[id];
    var valid := Written(d, id, r.(state := Validated, backup := Some(Rollback(id, r.token))));
    PromotedAfterBoth(valid, id, fates[1..]);
  }

  /** A run succeeds exactly when it leaves its migration PROMOTED with something live. */
  lemma PromotedIff(d: Disk, cmd: Command)
    requires Named(cmd) && (cmd.id in d.journal ==> Matches(d, cmd))
    ensures var d' := After(d, cmd);
            Suffices(Needed(d, cmd), cmd.fates) <==>
              cmd.id in d'.journal && d'.journal[cmd.id].state == Promoted && Live in d'.fs
  {
    if Suffices(Needed(d, cmd), cmd.fates) {
      Finishes(d, cmd);
    } else if cmd.id in After(d, cmd).journal && After(d, cmd).journal[cmd.id].state == Promoted {
      if cmd.id !in d.journal {
        PromotedAfterAll(Begun(d, cmd), cmd.id, cmd.verdict, cmd.fates[3..]);
      } else if d.journal[cmd.id].state == Staged {
        PromotedAfterAll(d, cmd.id, cmd.verdict, cmd.fates);
      }
    }
  }

  /** An id is bound to its first fingerprint and version, and nothing may be unnamed. */
  lemma BoundToItsArguments(d: Disk, cmd: Command)
    requires cmd.Migrate?
    requires || cmd.id == "" || cmd.fingerprint == "" || cmd.version == ""
             || (cmd.id in d.journal && d.journal[cmd.id].fingerprint != cmd.fingerprint)
             || (cmd.id in d.journal && d.journal[cmd.id].version != cmd.version)
    ensures After(d, cmd) == d && Needed(d, cmd) == None
  {
  }

  /** A run refuses a migration it knows exactly when it can neither resume nor keep it. */
  lemma StuckIff(d: Disk, cmd: Command)
    requires Named(cmd) && cmd.id in d.journal
    ensures Stuck(d, cmd) <==> Needed(d, cmd) == None && !(Matches(d, cmd) && Resumable(d, cmd.id))
    ensures Stuck(d, cmd) ==> After(d, cmd) == d
  {
  }

  /** How the builder ends decides what the journal says, once it lives to be told: STAGED for
      an artifact left by a builder that asks to be resumed, FAILED for any other builder that
      does not end well; the artifact stays where it was built, and nothing else changes. */
  lemma BuilderDecides(d: Disk, cmd: Command)
    requires Named(cmd) && cmd.id !in d.journal && Staging(cmd.id, NextToken(d.journal)) !in d.fs
    requires |cmd.fates| >= 3 && cmd.fates[0] == Done && cmd.fates[2] == Done
    requires cmd.fates[1] == Refused || cmd.build != Creates
    ensures var (d', path) := (After(d, cmd), Staging(cmd.id, NextToken(d.journal)));
            && cmd.id in d'.journal && d'.journal[cmd.id].staging == Some(path)
            && d'.journal[cmd.id].state
               == (if cmd.fates[1] == Done && cmd.build == CreatesThenYields then Staged else Failed)
            && (path in d'.fs <==> cmd.fates[1] == Done && cmd.build in {CreatesThenYields, CreatesThenRaises})
            && d'.fs - {path} == d.fs
  {
    assert !Happen(cmd.fates, 2) <==> cmd.fates[1] == Refused;
    assert cmd.fates[1..][1] == Done;
  }

  /** What the validator says of a staged artifact: an interruption leaves everything as it was,
      a rejection fails the migration and keeps the artifact. */
  lemma ValidatorDecides(d: Disk, cmd: Command)
    requires Named(cmd) && Matches(d, cmd) && Resumable(d, cmd.id) && Happen(cmd.fates, 1)
    ensures cmd.verdict == Interrupts ==> After(d, cmd) == d
    ensures cmd.verdict == Rejects ==>
              After(d, cmd).fs == d.fs && After(d, cmd).journal[cmd.id] == d.journal[cmd.id].(state := Failed)
  {
  }

  /** A second rename that is refused is journalled as SWAP_RECOVERY_REQUIRED. */
  lemma RefusedRenameIsJournalled(d: Disk, cmd: Command)
    requires Named(cmd) && Matches(d, cmd) && Resumable(d, cmd.id) && cmd.verdict == Accepts
    requires Promotable(d, cmd.id, d.journal[cmd.id].token)
    requires var n := if Live in d.fs then 3 else 2;
             Happen(cmd.fates, n) && |cmd.fates| >= n + 2 && cmd.fates[n] == Refused && cmd.fates[n + 1] == Done
    ensures After(d, cmd).journal[cmd.id].state == SwapRecoveryRequired && Live !in After(d, cmd).fs
  {
    var r, fates := d.journal[cmd.id], cmd.fates[1..];
    var valid := Written(d, cmd.id, r.(state := Validated, backup := Some(Rollback(cmd.id, r.token))));
    assert fates[1..] == cmd.fates[2..];
    assert AfterPromote(valid, cmd.id, fates).journal[cmd.id].state == Marked(d.fs, fates[1..]);
  }

  /** The journal says ROLLING_BACK from the first effect of a rollback to its last, and
      ROLLED_BACK only once both renames are done; between the two nothing is live. */
  lemma UndoRecordsLast(d: Disk, id: string, fates: seq<Fate>)
    requires Undoable(d, id) && Happen(fates, 1)
    ensures var (d', token) := (AfterUndo(d, id, fates), d.journal[id].token);
            && (d'.journal[id].state == RolledBack <==> Happen(fates, 4))
            && (!Happen(fates, 4) ==> d'.journal[id] == d.journal[id].(state := RollingBack))
            && (!Happen(fates, 2) ==> d'.fs == d.fs)
            && (Happen(fates, 2) ==> At(d'.fs, RolledForward(id, token), d.fs[Live]))
            && (Live !in d'.fs <==> Happen(fates, 2) && !Happen(fates, 3))
            && (Happen(fates, 3) ==> At(d'.fs, Live, d.fs[Rollback(id, token)]))
  {
  }

  /** A migration touches no other journal entry and no rolled-forward path. */
  lemma Migrating(d: Disk, cmd: Command)
    requires cmd.Migrate?
    ensures var d' := After(d, cmd);
            SameForward(d.fs, d'.fs) && OthersKept(d.journal, d'.journal, cmd.id) && d'.next >= d.next
  {
    if cmd.id !in d.journal {
      var staged := Begun(d, cmd);
      Beginning(d, cmd);
      if cmd.id in staged.journal && Happen(cmd.fates, 3) {
        Validating(staged, cmd.id, cmd.verdict, cmd.fates[3..]);
      }
    } else {
      Validating(d, cmd.id, cmd.verdict, cmd.fates);
    }
  }

  /** A whole rollback: the retained artifact is live again, the promoted one is kept, and
      no other migration is concerned. */
  predicate Undone(d: Disk, id: string, d': Disk) {
    && id in d.journal && d.journal[id].state == Promoted && d'.next == d.next
    && var (was, token) := (d.journal[id], d.journal[id].token);
    && Live in d.fs && Rollback(id, token) in d.fs && RolledForward(id, token) !in d.fs
    && d'.fs == Restored(d.fs, id, token)
    && d'.journal == d.journal[id := was.(state := RolledBack, staging := None,
                                          backup := Some(RolledForward(id, token)))]
  }

  lemma Undoing(d: Disk, id: string, fates: seq<Fate>)
    requires Undoable(d, id) && Happen(fates, 4)
    ensures Undone(d, id, AfterUndo(d, id, fates))
  {
  }

  class Coordinator {
    var fs: Filesystem
    var journal: map<string, Record>
    var next: Artifact
    var fates: seq<Fate>
    /** What was live to begin with, and everything a validator has accepted. */
    ghost var trusted: set<Artifact>
    /** How many artifacts existed before the first migration. */
    ghost const originals: nat

    ghost predicate Valid()
      reads this
    {
      && Conserved(fs, next)
      && (forall p | p in fs :: if p.Staging? then fs[p] >= originals else fs[p] in trusted)
      && originals <= next
      && (forall id | id in journal :: RecordOk(id, journal[id], fs, trusted))
    }

    constructor (live: bool, fates: seq<Fate>)
      ensures Valid()
      ensures journal == map[] && next == (if live then 1 else 0) && this.fates == fates
      ensures fs == if live then map[Live := 0] else map[]
      ensures trusted == if live then {0} else {}
      ensures originals == if live then 1 else 0
    {
      fs := if live then map[Live := 0] else map[];
      journal := map[];
      next := if live then 1 else 0;
      trusted := if live then {0} else {};
      originals := if live then 1 else 0;
      this.fates := fates;
      new;
      assert live ==> At(fs, Live, 0);
      assert forall a :: Holds(fs, a) ==> live && a == 0;
    }

    ghost function OnDisk(): Disk
      reads this
    {
      Disk(fs, journal, next)
    }

    /** The environment decides whether the next effect happens. */
    method Fateful() returns (o: Outcome<Error>)
      modifies this`fates
      ensures o == (if old(fates) == [] then Fail(Crashed)
                    else if old(fates)[0] == Done then Pass
                    else Fail(SystemError))
      ensures fates == Rest(old(fates))
    {
      if fates == [] { return Fail(Crashed); }
      o := if fates[0] == Done then Pass else Fail(SystemError);
      fates := fates[1..];
    }

    /** A journal commit: all or nothing. */
    method Write(id: string, r: Record) returns (o: Outcome<Error>)
      requires Valid() && RecordOk(id, r, fs, trusted)
      modifies this`fates, this`journal
      ensures Valid()
      ensures o.Pass? ==> journal == old(journal)[id := r]
      ensures o.Fail? ==> journal == old(journal) && o.error in {Crashed, SystemError}
      ensures (o.Pass? <==> Happen(old(fates), 1)) && fates == Rest(old(fates))
    {
      o := Fateful();
      if o.Fail? { return; }
      journal := journal[id := r];
      return Pass;
    }

    /** The rename itself; the guards the callers have established mean that it never
        lands on an existing artifact. */
    method Rename(from: Path, to: Path) returns (o: Outcome<Error>)
      requires Valid()
      requires from in fs && to !in fs && !to.Staging? && fs[from] in trusted
      modifies this`fates, this`fs
      ensures Valid()
      ensures o.Pass? ==> fs == Replace(old(fs), from, to)
      ensures o.Fail? ==> fs == old(fs) && o.error in {Crashed, SystemError}
      ensures (o.Pass? <==> Happen(old(fates), 1)) && fates == Rest(old(fates))
      ensures o == Fail(Crashed) <==> old(fates) == []
    {
      o := Fateful();
      if o.Fail? { return; }
      ReplaceConserves(fs, next, from, to);
      fs := Replace(fs, from, to);
      return Pass;
    }

    /** The highest journalled token, or 0. */
    method MaxToken() returns (m: nat)
      ensures IsNext(journal, m + 1)
    {
      m := 0;
      var left := journal.Keys;
      while left != {}
        invariant left <= journal.Keys
        invariant forall id | id in journal && id !in left :: journal[id].token <= m
        invariant m == 0 || exists id :: id in journal && journal[id].token == m
      {
        var id :| id in left;
        if journal[id].token > m { m := journal[id].token; }
        left := left - {id};
      }
    }

    /** The builder works at the staging path and nowhere else. */
    method BuildStaging(path: Path, build: Build) returns (o: Outcome<Error>)
      requires Valid() && path.Staging? && path !in fs
      requires forall id | id in journal && path == Staging(id, journal[id].token) ::
                 journal[id].state !in {Validated, Swapping, SwapRecoveryRequired}
      modifies this`fates, this`fs, this`next
      ensures Valid()
      ensures path in fs <==> Happen(old(fates), 1) && Makes(build)
      ensures path in fs ==> fs == old(fs)[path := old(next)] && next == old(next) + 1
      ensures path !in fs ==> fs == old(fs) && next == old(next)
      ensures fates == Rest(old(fates))
      ensures o.Pass? <==> Happen(old(fates), 1) && build in {Creates, Nothing}
      ensures o == Fail(Crashed) <==> old(fates) == []
      ensures o.Fail? ==> o.error != InvalidArgument
      ensures o == Fail(ResumeRequired) <==> Happen(old(fates), 1) && build in {CreatesThenYields, Yields}
    {
      o := Fateful();
      if o.Fail? { return; }
      if Makes(build) {
        BuildConserves(fs, next, path);
        fs := fs[path := next];
        next := next + 1;
      }
      match build
      case Creates => return Pass;
      case Nothing => return Pass;
      case CreatesThenYields => return Fail(ResumeRequired);
      case Yields => return Fail(ResumeRequired);
      case _ => return Fail(BuildError);
    }

    /** KuzuMigrationCoordinator.run.  Whatever the fates, the builder and the validator
        do, `Valid` holds at the last effect that happened.  A migration succeeds exactly
        when the process lives through the effects it needs: a new one leaves the swap of
        what it built, a staged one the swap of what was staged, an interrupted swap is
        finished, and a promoted one is left alone. */
    method Run(id: string, fingerprint: string, version: string, build: Build, verdict: Verdict)
      returns (r: Result<Record, Error>)
      requires Valid()
      modifies this
      ensures Valid()
      ensures next >= old(next)
      ensures trusted == old(trusted) ||
                (verdict == Accepts && exists a :: Offered(old(fs), old(journal), old(next), id, build, a)
                                                   && trusted == old(trusted) + {a})
      ensures r.Success? ==> id in journal && journal[id] == r.value
      ensures SameForward(old(fs), fs)
      ensures OthersKept(old(journal), journal, id)
      ensures var cmd := Migrate(id, fingerprint, version, build, verdict, old(fates));
              && OnDisk() == After(old(OnDisk()), cmd)
              && (r.Success? <==> Suffices(Needed(old(OnDisk()), cmd), old(fates)))
              && (r.Success? ==> Finished(old(OnDisk()), cmd, OnDisk()))
              && (!Named(cmd) <==> r == Failure(InvalidArgument))
              && (Stuck(old(OnDisk()), cmd) ==> r == Failure(StateError))
    {
      ghost var cmd := Migrate(id, fingerprint, version, build, verdict, fates);
      Migrating(OnDisk(), cmd);
      if Suffices(Needed(OnDisk(), cmd), fates) { Finishes(OnDisk(), cmd); }
      if id == "" || fingerprint == "" || version == "" { return Failure(InvalidArgument); }
      r := RunLocked(id, fingerprint, version, build, verdict);
    }

    /** What `run` does while it holds the migration lock. */
    method RunLocked(id: string, fingerprint: string, version: string, build: Build, verdict: Verdict)
      returns (r: Result<Record, Error>)
      requires Valid() && id != "" && fingerprint != "" && version != ""
      modifies this
      ensures Valid()
      ensures trusted == old(trusted) ||
                (verdict == Accepts && exists a :: Offered(old(fs), old(journal), old(next), id, build, a)
                                                   && trusted == old(trusted) + {a})
      ensures r.Success? ==> id in journal && journal[id] == r.value
      ensures var cmd := Migrate(id, fingerprint, version, build, verdict, old(fates));
              && OnDisk() == AfterMigrate(old(OnDisk()), cmd)
              && (r.Success? <==> Suffices(Needed(old(OnDisk()), cmd), old(fates)))
              && r != Failure(InvalidArgument)
              && (Stuck(old(OnDisk()), cmd) ==> r == Failure(StateError))
    {
      if id in journal {
        r := Rerun(id, fingerprint, version, build, verdict);
        return;
      }
      var staged := Stage(id, fingerprint, version, build);
      if staged.Failure? { return Failure(staged.error); }
      assert Offered(old(fs), old(journal), old(next), id, build, old(next));
      assert fates == old(fates)[3..] && Resumable(OnDisk(), id);
      assert OnDisk() == Begun(old(OnDisk()), Migrate(id, fingerprint, version, build, verdict, old(fates)));
      r := ValidateAndPromote(id, verdict);
    }

    /** An id the journal knows. */
    method Rerun(id: string, fingerprint: string, version: string, ghost build: Build, verdict: Verdict)
      returns (r: Result<Record, Error>)
      requires Valid() && id != "" && fingerprint != "" && version != "" && id in journal
      modifies this
      ensures Valid()
      ensures trusted == old(trusted) ||
                (verdict == Accepts && exists a :: Offered(old(fs), old(journal), old(next), id, build, a)
                                                   && trusted == old(trusted) + {a})
      ensures r.Success? ==> id in journal && journal[id] == r.value
      ensures var cmd := Migrate(id, fingerprint, version, build, verdict, old(fates));
              && OnDisk() == AfterMigrate(old(OnDisk()), cmd)
              && (r.Success? <==> Suffices(Needed(old(OnDisk()), cmd), old(fates)))
              && r != Failure(InvalidArgument)
              && (Stuck(old(OnDisk()), cmd) ==> r == Failure(StateError))
    {
      var record := journal[id];
      if record.fingerprint != fingerprint || record.version != version { return Failure(StateError); }
      if record.state == Swapping {
        r := RecoverInterruptedSwap(id);
        return;
      }
      if record.state == Promoted {
        if Live !in fs { return Failure(StateError); }
        return Success(record);
      }
      if record.state != Staged || Staging(id, record.token) !in fs { return Failure(StateError); }
      assert Offered(old(fs), old(journal), old(next), id, build, fs[Staging(id, record.token)]);
      r := ValidateAndPromote(id, verdict);
    }

    /** The first half of `run` for an id the journal does not know. */
    method Stage(id: string, fingerprint: string, version: string, build: Build) returns (r: Result<nat, Error>)
      requires Valid() && id !in journal
      modifies this`fates, this`fs, this`journal, this`next
      ensures Valid() && next >= old(next)
      ensures r.Success? ==>
                var path := Staging(id, r.value);
                && build == Creates && path !in old(fs) && fs == old(fs)[path := old(next)]
                && id in journal && journal[id] == Record(fingerprint, version, Staged, r.value, Some(path), None)
                && fates == Rest(Rest(Rest(old(fates))))
      ensures var token := NextToken(old(journal));
              && OnDisk() == AfterStage(old(OnDisk()), id, fingerprint, version, build, token, old(fates))
              && (r.Success? <==> build == Creates && Staging(id, token) !in old(fs) && Happen(old(fates), 3))
              && (r.Success? ==> r.value == token)
      ensures r != Failure(InvalidArgument)
    {
      var highest := MaxToken();
      var token := highest + 1;
      NextIsUnique(journal, token);
      var path := Staging(id, token);
      if path in fs { return Failure(StateError); }
      var o := Write(id, Record(fingerprint, version, Building, token, Some(path), None));
      if o.Fail? { return Failure(o.error); }
      o := Build(id, build);
      if o.Fail? { return Failure(o.error); }
      return Success(token);
    }

    /** The builder, and what the journal is told about how it ended. */
    method Build(id: string, build: Build) returns (o: Outcome<Error>)
      requires Valid() && id in journal && journal[id].state == Building
      requires Staging(id, journal[id].token) !in fs
      modifies this`fates, this`fs, this`journal, this`next
      ensures Valid() && OnDisk() == AfterBuild(old(OnDisk()), id, build, old(fates))
      ensures o.Pass? <==> build == Creates && Happen(old(fates), 2)
      ensures o.Pass? ==> fates == old(fates)[2..]
      ensures o.Fail? ==> o.error != InvalidArgument
    {
      var row := journal[id];
      var path := Staging(id, row.token);
      o := BuildStaging(path, build);
      if o == Fail(Crashed) { return; }
      if o == Fail(ResumeRequired) {
        var _ := Write(id, row.(state := if path in fs then Staged else Failed));
        return;
      }
      if o.Fail? || path !in fs {
        var _ := Write(id, row.(state := Failed));
        if o.Pass? { o := Fail(StateError); }
        return;
      }
      o := Write(id, row.(state := Staged));
    }

    /** The second half: the caller's validator decides, the verdict is journalled, and an
        accepted artifact is promoted. */
    method ValidateAndPromote(id: string, verdict: Verdict) returns (r: Result<Record, Error>)
      requires Valid() && id in journal && journal[id].state == Staged && Staging(id, journal[id].token) in fs
      modifies this
      ensures Valid() && next == old(next)
      ensures trusted == if verdict == Accepts then old(trusted) + {old(fs)[Staging(id, old(journal)[id].token)]}
                         else old(trusted)
      ensures OnDisk() == AfterValidate(old(OnDisk()), id, verdict, old(fates))
      ensures r.Success? <==> verdict == Accepts && Promotable(old(OnDisk()), id, old(journal)[id].token)
                              && Happen(old(fates), Lead(old(fs)) + 3)
      ensures r != Failure(InvalidArgument)
      ensures r.Success? ==> id in journal && journal[id] == r.value
    {
      var record := journal[id];
      var staging := Staging(id, record.token);
      if verdict == Interrupts {
        var _ := Write(id, record.(state := Staged));
        return Failure(ResumeRequired);
      }
      if verdict == Rejects {
        var _ := Write(id, record.(state := Failed));
        return Failure(BuildError);
      }
      trusted := trusted + {fs[staging]};
      var o := Write(id, record.(state := Validated, backup := Some(Rollback(id, record.token))));
      if o.Fail? { return Failure(o.error); }
      r := Promote(id);
    }

    /** _promote: the journal says SWAPPING before the first rename and PROMOTED after the
        second. */
    method Promote(id: string) returns (r: Result<Record, Error>)
      requires Valid() && id in journal && journal[id].state == Validated
      modifies this`fates, this`fs, this`journal
      ensures Valid()
      ensures OnDisk() == AfterPromote(old(OnDisk()), id, old(fates))
      ensures r.Success? <==> Promotable(old(OnDisk()), id, old(journal)[id].token)
                              && Happen(old(fates), Lead(old(fs)) + 2)
      ensures r != Failure(InvalidArgument)
      ensures r.Success? ==> id in journal && journal[id] == r.value
    {
      var record := journal[id];
      var staging, backup := Staging(id, record.token), Rollback(id, record.token);
      if staging !in fs { return Failure(StateError); }
      if backup in fs { return Failure(StateError); }
      var o := Write(id, record.(state := Swapping));
      if o.Fail? { return Failure(o.error); }
      r := Swap(id);
      assert journal == old(journal)[id := journal[id]];
    }

    /** The rest of a promotion, once the journal says SWAPPING. */
    method Swap(id: string) returns (r: Result<Record, Error>)
      requires Valid() && id in journal && journal[id].state == Swapping
      requires Promotable(OnDisk(), id, journal[id].token)
      modifies this`fates, this`fs, this`journal
      ensures Valid()
      ensures fs == Moved(old(fs), id, old(journal)[id].token, old(fates))
      ensures var state := if Happen(old(fates), Lead(old(fs)) + 1) then Promoted else Marked(old(fs), old(fates));
              journal == old(journal)[id := old(journal)[id].(state := state)]
      ensures r.Success? <==> Happen(old(fates), Lead(old(fs)) + 1)
      ensures r.Success? ==> journal[id] == r.value
      ensures r.Failure? ==> r.error in {Crashed, SystemError}
    {
      var o := SwapIn(id);
      if o.Fail? { return Failure(o.error); }
      var record := journal[id].(state := Promoted);
      o := Write(id, record);
      if o.Fail? { return Failure(o.error); }
      return Success(record);
    }

    /** The two renames of a promotion; only a failure of the second is journalled, and
        only if the process survives it. */
    method SwapIn(id: string) returns (o: Outcome<Error>)
      requires Valid() && id in journal && journal[id].state == Swapping
      requires Staging(id, journal[id].token) in fs && Rollback(id, journal[id].token) !in fs
      modifies this`fates, this`fs, this`journal
      ensures Valid()
      ensures o.Pass? <==> Happen(old(fates), Lead(old(fs)))
      ensures o.Pass? ==> fates == old(fates)[Lead(old(fs))..]
      ensures fs == Moved(old(fs), id, old(journal)[id].token, old(fates))
      ensures journal == old(journal)[id := old(journal)[id].(state := Marked(old(fs), old(fates)))]
      ensures o.Fail? ==> o.error in {Crashed, SystemError}
    {
      var record := journal[id];
      if Live in fs {
        o := Rename(Live, Rollback(id, record.token));
        if o.Fail? { return; }
      }
      o := PromoteStaging(id);
    }

    method PromoteStaging(id: string) returns (o: Outcome<Error>)
      requires Valid() && id in journal && journal[id].state == Swapping
      requires Staging(id, journal[id].token) in fs && Live !in fs
      modifies this`fates, this`fs, this`journal
      ensures Valid()
      ensures o.Pass? <==> Happen(old(fates), 1)
      ensures o.Pass? ==> fs == Replace(old(fs), Staging(id, old(journal)[id].token), Live) && journal == old(journal)
                          && fates == old(fates)[1..]
      ensures o.Fail? ==>
                && fs == old(fs)
                && journal == (if Balks(old(fates), 0)
                               then old(journal)[id := old(journal)[id].(state := SwapRecoveryRequired)]
                               else old(journal))
                && o.error in {Crashed, SystemError}
    {
      var record := journal[id];
      o := Rename(Staging(id, record.token), Live);
      if o == Fail(SystemError) {
        var _ := Write(id, record.(state := SwapRecoveryRequired));
      }
    }

    /** _recover_interrupted_swap, entered with the journal saying SWAPPING.  It succeeds
        only from the two states an interrupted swap with something live can leave, and
        then the second rename has happened exactly once. */
    method RecoverInterruptedSwap(id: string) returns (r: Result<Record, Error>)
      requires Valid() && id in journal && journal[id].state == Swapping
      modifies this`fates, this`fs, this`journal
      ensures Valid()
      ensures OnDisk() == AfterRecovery(old(OnDisk()), id, old(fates))
      ensures r.Success? <==> var token := old(journal)[id].token;
                              || (SwappedOver(old(fs), id, token) && Happen(old(fates), 1))
                              || (HalfSwapped(old(fs), id, token) && Happen(old(fates), 2))
      ensures r != Failure(InvalidArgument)
      ensures r == Failure(StateError) <==> var token := old(journal)[id].token;
                !SwappedOver(old(fs), id, token) && !HalfSwapped(old(fs), id, token)
      ensures r.Success? ==> id in journal && journal[id] == r.value
    {
      var record := journal[id];
      var staging, backup := Staging(id, record.token), Rollback(id, record.token);
      if Live in fs && staging !in fs && backup in fs {
      } else if Live !in fs && staging in fs && backup in fs {
        var o := Rename(staging, Live);
        if o.Fail? { return Failure(o.error); }
      } else {
        return Failure(StateError);
      }
      var o := Write(id, record.(state := Promoted));
      if o.Fail? { return Failure(o.error); }
      return Success(record.(state := Promoted));
    }

    /** The two renames of a rollback; a crash between them leaves nothing live. */
    method SwapBack(id: string, token: nat) returns (o: Outcome<Error>)
      requires Valid() && Live in fs && Rollback(id, token) in fs && RolledForward(id, token) !in fs
      modifies this`fates, this`fs
      ensures Valid()
      ensures o.Pass? <==> Happen(old(fates), 2)
      ensures o.Pass? ==> fates == old(fates)[2..]
      ensures fs == if !Happen(old(fates), 1) then old(fs)
                    else if !Happen(old(fates), 2) then Replace(old(fs), Live, RolledForward(id, token))
                    else Restored(old(fs), id, token)
    {
      o := Rename(Live, RolledForward(id, token));
      if o.Pass? { o := Rename(Rollback(id, token), Live); }
    }

    /** KuzuMigrationCoordinator.rollback. */
    method RollBack(id: string) returns (r: Result<Record, Error>)
      requires Valid()
      modifies this`fates, this`fs, this`journal
      ensures Valid()
      ensures r.Success? ==> id in journal && journal[id] == r.value && Undone(old(OnDisk()), id, OnDisk())
      ensures OnDisk() == AfterUndo(old(OnDisk()), id, old(fates))
      ensures r.Success? <==> Undoable(old(OnDisk()), id) && Happen(old(fates), 4)
    {
      if Undoable(OnDisk(), id) && Happen(fates, 4) { Undoing(OnDisk(), id, fates); }
      if id !in journal || journal[id].state != Promoted { return Failure(StateError); }
      var record := journal[id];
      var backup := Rollback(id, record.token);
      if backup !in fs || Live !in fs { return Failure(StateError); }
      var displaced := RolledForward(id, record.token);
      if displaced in fs { return Failure(StateError); }
      var o := Write(id, record.(state := RollingBack));
      if o.Fail? { return Failure(o.error); }
      o := SwapBack(id, record.token);
      if o.Fail? { return Failure(o.error); }
      var done := record.(state := RolledBack, staging := None, backup := Some(displaced));
      o := Write(id, done);
      if o.Fail? { return Failure(o.error); }
      return Success(done);
    }
  }

  // ---------------------------------------------------------------------------
  // Every history
  // ---------------------------------------------------------------------------

  /** What each of `commands` starts on, and what the last one leaves. */
  ghost function Disks(live: bool, commands: seq<Command>): (disks: seq<Disk>)
    ensures |disks| == |commands| + 1
    decreases |commands|, 1
  {
    if commands == [] then [FirstDisk(live)]
    else Disks(live, commands[..|commands| - 1]) + [Left(live, commands)]
  }

  ghost function Left(live: bool, commands: seq<Command>): Disk
    requires commands != []
    decreases |commands|, 0
  {
    var n := |commands| - 1;
    After(Disks(live, commands[..n])[n], commands[n])
  }

  lemma DisksStep(live: bool, commands: seq<Command>, cmd: Command)
    ensures Disks(live, commands + [cmd])
            == Disks(live, commands) + [After(Disks(live, commands)[|commands|], cmd)]
  {
    assert (commands + [cmd])[..|commands|] == commands;
  }

  /** `cmd`, started on disk `d`, showed artifact `a` to its validator, which accepted it. */
  predicate AcceptedBy(d: Disk, cmd: Command, a: Artifact) {
    cmd.Migrate? && cmd.verdict == Accepts && Offered(d.fs, d.journal, d.next, cmd.id, cmd.build, a)
  }

  /** The undo moves the original away from live: it stands there, the guard holds, and the
      process lives to write the journal and make the first rename. */
  predicate Displaces(d: Disk, cmd: Command) {
    cmd.Undo? && At(d.fs, Live, 0) && Undoable(d, cmd.id) && Happen(cmd.fates, 2)
  }

  ghost predicate EverDisplaced(commands: seq<Command>, disks: seq<Disk>)
    requires |disks| == |commands| + 1
  {
    exists k :: 0 <= k < |commands| && Displaces(disks[k], commands[k])
  }

  /** A new migration whose process lives and whose caller builds and accepts. */
  ghost predicate GoesWell(d: Disk, cmd: Command) {
    && cmd.Migrate? && Happen(cmd.fates, 8) && cmd.id !in d.journal
    && cmd.id != "" && cmd.fingerprint != "" && cmd.version != "" && cmd.build == Creates && cmd.verdict == Accepts
    && (forall t :: Staging(cmd.id, t) !in d.fs && Rollback(cmd.id, t) !in d.fs)
  }

  ghost predicate SetAside(fs: Filesystem, a: Artifact) {
    exists p: Path :: p.RolledForward? && At(fs, p, a)
  }

  lemma UndoMoves(d: Disk, cmd: Command, fs': Filesystem)
    requires cmd.Undo? && fs' == After(d, cmd).fs && Conserved(d.fs, d.next)
    ensures SetAside(fs', 0) <==> SetAside(d.fs, 0) || Displaces(d, cmd)
  {
    if SetAside(d.fs, 0) {
      var p: Path :| p.RolledForward? && At(d.fs, p, 0);
      assert At(fs', p, 0);
    }
    if Displaces(d, cmd) { assert At(fs', RolledForward(cmd.id, d.journal[cmd.id].token), 0); }
    if SetAside(fs', 0) {
      var p: Path :| p.RolledForward? && At(fs', p, 0);
      if p in d.fs { assert At(d.fs, p, 0); }
    }
  }

  lemma ForwardStays(fs: Filesystem, fs': Filesystem)
    requires SameForward(fs, fs')
    ensures SetAside(fs', 0) <==> SetAside(fs, 0)
  {
    if SetAside(fs, 0) {
      var p: Path :| p.RolledForward? && At(fs, p, 0);
      assert At(fs', p, 0);
    }
    if SetAside(fs', 0) {
      var p: Path :| p.RolledForward? && At(fs', p, 0);
      assert At(fs, p, 0);
    }
  }

  /** What every process has done to the original and to the set of trusted artifacts, `disks[k]`
      being what command `k` started on. */
  ghost predicate Accounted(live: bool, commands: seq<Command>, disks: seq<Disk>, trusted: set<Artifact>)
    requires |disks| == |commands| + 1
  {
    && (forall a | a in trusted ::
          (live && a == 0) || exists k :: 0 <= k < |commands| && AcceptedBy(disks[k], commands[k], a))
    && (live ==> (SetAside(disks[|commands|].fs, 0) <==> EverDisplaced(commands, disks)))
  }

  lemma AccountFirst(live: bool)
    ensures Accounted(live, [], [FirstDisk(live)], if live then {0} else {})
  {
  }

  lemma AccountMigrate(live: bool, commands: seq<Command>, disks: seq<Disk>, trusted: set<Artifact>,
                       cmd: Command, d: Disk, trusted': set<Artifact>)
    requires |disks| == |commands| + 1 && Accounted(live, commands, disks, trusted)
    requires cmd.Migrate? && SameForward(disks[|commands|].fs, d.fs)
    requires trusted' == trusted || exists a :: AcceptedBy(disks[|commands|], cmd, a) && trusted' == trusted + {a}
    ensures Accounted(live, commands + [cmd], disks + [d], trusted')
  {
    ForwardStays(disks[|commands|].fs, d.fs);
    AccountStep(live, commands, disks, trusted, cmd, d, trusted');
  }

  lemma AccountUndo(live: bool, commands: seq<Command>, disks: seq<Disk>, trusted: set<Artifact>,
                    cmd: Command, d: Disk)
    requires |disks| == |commands| + 1 && Accounted(live, commands, disks, trusted)
    requires cmd.Undo? && Conserved(disks[|commands|].fs, disks[|commands|].next)
    requires d == After(disks[|commands|], cmd)
    ensures Accounted(live, commands + [cmd], disks + [d], trusted)
  {
    UndoMoves(disks[|commands|], cmd, d.fs);
    AccountStep(live, commands, disks, trusted, cmd, d, trusted);
  }

  lemma AccountStep(live: bool, commands: seq<Command>, disks: seq<Disk>, trusted: set<Artifact>,
                    cmd: Command, d: Disk, trusted': set<Artifact>)
    requires |disks| == |commands| + 1 && Accounted(live, commands, disks, trusted)
    requires trusted' == trusted || exists a :: AcceptedBy(disks[|commands|], cmd, a) && trusted' == trusted + {a}
    requires SetAside(d.fs, 0) <==> SetAside(disks[|commands|].fs, 0) || Displaces(disks[|commands|], cmd)
    ensures Accounted(live, commands + [cmd], disks + [d], trusted')
  {
    var cs, ds, n := commands + [cmd], disks + [d], |commands|;
    forall a | a in trusted' && !(live && a == 0) ensures exists k :: 0 <= k < |cs| && AcceptedBy(ds[k], cs[k], a) {
      if a in trusted {
        var k :| 0 <= k < n && AcceptedBy(disks[k], commands[k], a);
        assert AcceptedBy(ds[k], cs[k], a);
      } else {
        assert AcceptedBy(ds[n], cs[n], a);
      }
    }
    EverStep(commands, disks, cmd, d);
  }

  lemma EverStep(commands: seq<Command>, disks: seq<Disk>, cmd: Command, d: Disk)
    requires |disks| == |commands| + 1
    ensures EverDisplaced(commands + [cmd], disks + [d]) <==>
              EverDisplaced(commands, disks) || Displaces(disks[|commands|], cmd)
  {
    var cs, ds, n := commands + [cmd], disks + [d], |commands|;
    if k :| 0 <= k < n && Displaces(disks[k], commands[k]) { assert Displaces(ds[k], cs[k]); }
    if Displaces(disks[n], cmd) { assert Displaces(ds[n], cs[n]); }
    if k :| 0 <= k < |cs| && Displaces(ds[k], cs[k]) {
      if k < n { assert Displaces(disks[k], commands[k]); }
    }
  }

  /** Any number of processes, one after another under the migration lock, each dying
      wherever its fates run out: what the last one leaves on disk conserves every
      artifact, keeps the original outside the staging paths, and shows as live only the
      original or an artifact that some command's own validator was shown and accepted.  The
      original is at live or a rollback path unless an undo displaced it.  `disks[k]` is what
      command `k` found, and each one's result is the one `After` gives. */
  method History(live: bool, commands: seq<Command>) returns (c: Coordinator, ghost disks: seq<Disk>)
    ensures c.Valid() && disks == Disks(live, commands) && c.OnDisk() == disks[|commands|]
    ensures Accounted(live, commands, disks, c.trusted) && (Live in c.fs ==> c.fs[Live] in c.trusted)
    ensures Live in c.fs ==>
              || (live && c.fs[Live] == 0)
              || exists k :: 0 <= k < |commands| && AcceptedBy(disks[k], commands[k], c.fs[Live])
    ensures live ==> exists p :: At(c.fs, p, 0) && !p.Staging?
                                 && (p.RolledForward? <==> EverDisplaced(commands, disks))
  {
    c, disks := RunAll(live, commands);
    OriginalFound(c, live, commands, disks);
  }

  method RunAll(live: bool, commands: seq<Command>) returns (c: Coordinator, ghost disks: seq<Disk>)
    ensures fresh(c) && c.Valid() && (live ==> c.originals == 1)
    ensures disks == Disks(live, commands) && c.OnDisk() == disks[|commands|]
    ensures Accounted(live, commands, disks, c.trusted)
  {
    if commands == [] {
      c := new Coordinator(live, []);
      disks := [FirstDisk(live)];
      AccountFirst(live);
    } else {
      var n := |commands| - 1;
      c, disks := RunAll(live, commands[..n]);
      disks := Execute(c, commands[n], live, commands[..n], disks);
      assert commands == commands[..n] + [commands[n]];
    }
  }

  lemma OriginalFound(c: Coordinator, live: bool, commands: seq<Command>, disks: seq<Disk>)
    requires c.Valid() && (live ==> c.originals >= 1)
    requires |disks| == |commands| + 1 && disks[|commands|] == Disk(c.fs, c.journal, c.next)
    requires Accounted(live, commands, disks, c.trusted)
    ensures Live in c.fs ==> c.fs[Live] in c.trusted
    ensures live ==> exists p :: At(c.fs, p, 0) && !p.Staging?
                                 && (p.RolledForward? <==> EverDisplaced(commands, disks))
  {
    if live {
      assert Holds(c.fs, 0);
      var p :| At(c.fs, p, 0);
      assert p.RolledForward? <==> SetAside(c.fs, 0);
    }
  }

  /** One process: migrate or undo, until it is done or its fates run out. */
  method Process(c: Coordinator, cmd: Command)
    requires c.Valid()
    modifies c
    ensures c.Valid() && c.OnDisk() == After(old(c.OnDisk()), cmd)
    ensures c.trusted == old(c.trusted) ||
              exists a :: AcceptedBy(old(c.OnDisk()), cmd, a) && c.trusted == old(c.trusted) + {a}
    ensures cmd.Undo? ==> c.trusted == old(c.trusted)
    ensures cmd.Migrate? ==> SameForward(old(c.fs), c.fs)
  {
    c.fates := cmd.fates;
    match cmd
    case Migrate(id, fingerprint, version, build, verdict, _) =>
      var _ := c.Run(id, fingerprint, version, build, verdict);
    case Undo(id, _) =>
      var _ := c.RollBack(id);
  }

  method Execute(c: Coordinator, cmd: Command, ghost live: bool, ghost commands: seq<Command>, ghost disks: seq<Disk>)
    returns (ghost after: seq<Disk>)
    requires c.Valid()
    requires disks == Disks(live, commands) && c.OnDisk() == disks[|commands|]
    requires Accounted(live, commands, disks, c.trusted)
    modifies c
    ensures after == Disks(live, commands + [cmd])
    ensures c.Valid() && c.OnDisk() == after[|commands| + 1]
    ensures Accounted(live, commands + [cmd], after, c.trusted)
  {
    ghost var trusted := c.trusted;
    Process(c, cmd);
    after := disks + [c.OnDisk()];
    DisksStep(live, commands, cmd);
    if cmd.Migrate? {
      AccountMigrate(live, commands, disks, trusted, cmd, c.OnDisk(), c.trusted);
    } else {
      AccountUndo(live, commands, disks, trusted, cmd, c.OnDisk());
    }
  }

  // ---------------------------------------------------------------------------
  // Dying and running again
  // ---------------------------------------------------------------------------

  /** `cmd`, run by a process that dies after `k` effects. */
  function Cut(cmd: Command, k: nat): Command
    requires cmd.Migrate? && k <= |cmd.fates|
  {
    cmd.(fates := cmd.fates[..k])
  }

  /** The deaths a new migration gets over: before its first effect, with its artifact
      staged, or with the first of two renames done. */
  predicate Survivable(fs: Filesystem, k: nat) {
    k == 0 || k == 3 || k >= (if Live in fs then 6 else 7)
  }

  /** Nobody finishes this migration any more. */
  predicate Abandoned(d: Disk, id: string) {
    && id in d.journal
    && var r := d.journal[id];
    || r.state in {Building, Validated, SwapRecoveryRequired, Failed, RollingBack, RolledBack}
    || (r.state == Swapping && Rollback(id, r.token) !in d.fs)
  }

  /** The two ways in which the second process finds a promotion that was cut off. */
  lemma PromoteAgain(v: Disk, cmd: Command, fates: seq<Fate>)
    requires Named(cmd) && Matches(v, cmd) && v.journal[cmd.id].state == Validated
    requires Promotable(v, cmd.id, v.journal[cmd.id].token) && Happen(cmd.fates, 2) && Happen(fates, |fates|)
    ensures var (dead, whole) := (AfterPromote(v, cmd.id, fates), v.journal[cmd.id].(state := Promoted));
            if |fates| >= (if Live in v.fs then 2 else 3)
            then After(dead, cmd) == Written(v.(fs := Swapped(v.fs, cmd.id, whole.token)), cmd.id, whole)
            else After(dead, cmd) == dead && Abandoned(dead, cmd.id)
  {
    var dead := AfterPromote(v, cmd.id, fates);
    var r := v.journal[cmd.id];
    var whole := Written(v.(fs := Swapped(v.fs, cmd.id, r.token)), cmd.id, r.(state := Promoted));
    if |fates| >= Lead(v.fs) + 2 {
      PromoteFinishes(v, cmd.id, fates);
      assert dead == whole;
    } else if |fates| >= 1 {
      assert dead.journal == v.journal[cmd.id := r.(state := Swapping)];
      if Live in v.fs && |fates| >= 2 {
        assert After(dead, cmd).fs == whole.fs;
        assert After(dead, cmd).journal == whole.journal;
      }
    }
  }

  /** The disk of a migration whose artifact is built and journalled as staged. */
  predicate Built(d: Disk, cmd: Command) {
    && Named(cmd) && Matches(d, cmd) && d.journal[cmd.id].state == Staged && cmd.verdict == Accepts
    && Promotable(d, cmd.id, d.journal[cmd.id].token) && Happen(cmd.fates, 8)
  }

  lemma ValidateAgain(d: Disk, cmd: Command)
    requires Built(d, cmd)
    ensures After(d, cmd) == AfterValidate(d, cmd.id, Accepts, cmd.fates[3..])
  {
    ValidateFinishes(d, cmd.id, cmd.fates[3..]);
    ValidateFinishes(d, cmd.id, cmd.fates);
  }

  lemma RunAgain(d: Disk, cmd: Command, k: nat)
    requires Built(d, cmd) && 4 <= k <= 8
    ensures var (dead, whole) := (AfterValidate(d, cmd.id, Accepts, cmd.fates[3..k]),
                                  AfterValidate(d, cmd.id, Accepts, cmd.fates[3..]));
            if Survivable(d.fs, k) then After(dead, cmd) == whole
            else After(dead, cmd) == dead && Abandoned(dead, cmd.id)
  {
    var r := d.journal[cmd.id];
    var valid := Written(d, cmd.id, r.(state := Validated, backup := Some(Rollback(cmd.id, r.token))));
    ValidateFinishes(d, cmd.id, cmd.fates[3..]);
    assert cmd.fates[3..k][1..] == cmd.fates[4..k];
    PromoteAgain(valid, cmd, cmd.fates[4..k]);
  }

  lemma DiesBuilding(d: Disk, cmd: Command, k: nat)
    requires GoesWell(d, cmd) && 1 <= k < 3
    ensures var dead := After(d, Cut(cmd, k));
            Abandoned(dead, cmd.id) && dead.journal[cmd.id].state == Building && After(dead, cmd) == dead
  {
  }

  lemma DiesLater(d: Disk, cmd: Command, k: nat)
    requires GoesWell(d, cmd) && 3 <= k <= 8
    ensures var dead := After(d, Cut(cmd, k));
            if Survivable(d.fs, k) then After(dead, cmd) == After(d, cmd)
            else After(dead, cmd) == dead && Abandoned(dead, cmd.id)
  {
    var staged := Begun(d, cmd);
    assert cmd.fates[..k][3..] == cmd.fates[3..k];
    assert Begun(d, Cut(cmd, k)) == staged;
    if k == 3 { ValidateAgain(staged, cmd); } else { RunAgain(staged, cmd, k); }
  }

  /** A new migration that is cut off after any number of effects and then run again by a
      living process leaves the very disk that one uninterrupted run leaves if and only if
      the death was survivable; otherwise the second run changes nothing, and the migration
      is abandoned. */
  lemma RerunCompletesIff(d: Disk, cmd: Command, k: nat)
    requires GoesWell(d, cmd) && k <= 8
    ensures Finished(d, cmd, After(d, cmd))
    ensures var dead := After(d, Cut(cmd, k));
            && (Survivable(d.fs, k) <==> After(dead, cmd) == After(d, cmd))
            && (!Survivable(d.fs, k) ==> After(dead, cmd) == dead && Abandoned(dead, cmd.id))
  {
    Works(d, cmd, After(d, cmd));
    if k == 0 {
      assert After(d, Cut(cmd, 0)) == d;
    } else if k < 3 {
      DiesBuilding(d, cmd, k);
    } else {
      DiesLater(d, cmd, k);
    }
  }

  /** Only a migration of its own puts anything at the rollback paths of an id. */
  ghost predicate NoNewRollback(before: Filesystem, after: Filesystem, id: string) {
    forall token | Rollback(id, token) in after :: Rollback(id, token) in before
  }

  lemma ValidateElsewhere(d: Disk, cmdId: string, verdict: Verdict, fates: seq<Fate>, id: string)
    requires cmdId in d.journal && cmdId != id
    ensures NoNewRollback(d.fs, AfterValidate(d, cmdId, verdict, fates).fs, id)
  {
  }

  lemma MigrateElsewhere(d: Disk, cmd: Command, id: string)
    requires cmd.Migrate? && cmd.id != id
    ensures NoNewRollback(d.fs, After(d, cmd).fs, id)
  {
    if cmd.id !in d.journal {
      var staged := Begun(d, cmd);
      assert NoNewRollback(d.fs, staged.fs, id);
      if cmd.id in staged.journal && Happen(cmd.fates, 3) {
        ValidateElsewhere(staged, cmd.id, cmd.verdict, cmd.fates[3..], id);
      }
    } else {
      ValidateElsewhere(d, cmd.id, cmd.verdict, cmd.fates, id);
    }
  }

  lemma AbandonedStays(d: Disk, cmd: Command, id: string, d': Disk)
    requires Abandoned(d, id) && d' == After(d, cmd)
    ensures Abandoned(d', id) && d'.journal[id] == d.journal[id]
  {
    if cmd.Migrate? && cmd.id != id {
      MigrateElsewhere(d, cmd, id);
      Migrating(d, cmd);
    } else if cmd.Migrate? {
      assert d' == d;
    }
  }

  /** Whatever migrations are run or undone afterwards. */
  lemma {:induction false} AbandonedForEver(live: bool, commands: seq<Command>, more: seq<Command>, id: string)
    requires Abandoned(Disks(live, commands)[|commands|], id)
    ensures var d := Disks(live, commands + more)[|commands + more|];
            Abandoned(d, id) && d.journal[id] == Disks(live, commands)[|commands|].journal[id]
  {
    if more == [] {
      assert commands + more == commands;
    } else {
      var n := |more| - 1;
      AbandonedForEver(live, commands, more[..n], id);
      assert commands + more == commands + more[..n] + [more[n]];
      DisksStep(live, commands + more[..n], more[n]);
      AbandonedStays(Disks(live, commands + more[..n])[|commands| + n], more[n], id,
                     Disks(live, commands + more)[|commands| + n + 1]);
    }
  }

  // ---------------------------------------------------------------------------
  // Undoing out of order
  // ---------------------------------------------------------------------------

  const LIVING: seq<Fate> := [Done, Done, Done, Done, Done, Done, Done, Done]

  function In(id: string): Command {
    Migrate(id, "f", "v", Creates, Accepts, LIVING)
  }

  /** Two migrations, undone in the order in which they were made. */
  function OutOfOrder(a: string, b: string): seq<Command> {
    [In(a), In(b), Undo(a, LIVING), Undo(b, LIVING)]
  }

  predicate FirstDone(a: string, d: Disk) {
    && d.fs == map[Rollback(a, 1) := 0, Live := 1] && d.next == 2 && d.journal.Keys == {a}
    && d.journal[a].state == Promoted && d.journal[a].token == 1
  }

  predicate SecondDone(a: string, b: string, d: Disk) {
    && d.fs == map[Rollback(a, 1) := 0, Rollback(b, 2) := 1, Live := 2]
    && a in d.journal && d.journal[a].state == Promoted && d.journal[a].token == 1
    && b in d.journal && d.journal[b].state == Promoted && d.journal[b].token == 2
  }

  lemma FirstIn(a: string, d: Disk)
    requires Finished(FirstDisk(true), In(a), d) && OthersKept(map[], d.journal, a)
    ensures FirstDone(a, d)
  {
    assert d.journal[a].token == 1;
  }

  lemma SecondIn(a: string, b: string, d: Disk, d': Disk)
    requires a != b && FirstDone(a, d)
    requires Finished(d, In(b), d') && OthersKept(d.journal, d'.journal, b)
    ensures SecondDone(a, b, d')
  {
    assert d'.journal[b].token == 2;
  }

  lemma FirstOut(a: string, b: string, d: Disk)
    requires a != b && SecondDone(a, b, d)
    ensures var d' := After(d, Undo(a, LIVING));
            && d'.fs == map[RolledForward(a, 1) := 2, Rollback(b, 2) := 1, Live := 0]
            && b in d'.journal && d'.journal[b] == d.journal[b]
  {
  }

  lemma SecondOut(a: string, b: string, d: Disk)
    requires a != b && d.fs == map[RolledForward(a, 1) := 2, Rollback(b, 2) := 1, Live := 0]
    requires b in d.journal && d.journal[b].state == Promoted && d.journal[b].token == 2
    ensures Displaces(d, Undo(b, LIVING))
    ensures After(d, Undo(b, LIVING)).fs == map[RolledForward(a, 1) := 2, RolledForward(b, 2) := 0, Live := 1]
  {
  }

  lemma Works(d: Disk, cmd: Command, d': Disk)
    requires GoesWell(d, cmd) && d' == After(d, cmd)
    ensures Finished(d, cmd, d') && OthersKept(d.journal, d'.journal, cmd.id)
  {
    assert Suffices(Needed(d, cmd), cmd.fates);
    Finishes(d, cmd);
    Migrating(d, cmd);
  }

  lemma InMoves(commands: seq<Command>, cmd: Command, d: Disk, d': Disk)
    requires d == Disks(true, commands)[|commands|] && d' == Disks(true, commands + [cmd])[|commands| + 1]
    requires GoesWell(d, cmd)
    ensures Finished(d, cmd, d') && OthersKept(d.journal, d'.journal, cmd.id)
  {
    DisksStep(true, commands, cmd);
    Works(d, cmd, d');
  }

  lemma OneIn(a: string)
    requires a != ""
    ensures FirstDone(a, Disks(true, [In(a)])[1])
  {
    assert [] + [In(a)] == [In(a)];
    InMoves([], In(a), FirstDisk(true), Disks(true, [In(a)])[1]);
    FirstIn(a, Disks(true, [In(a)])[1]);
  }

  lemma SecondGoesWell(a: string, b: string, d: Disk)
    requires a != b && b != "" && FirstDone(a, d)
    ensures GoesWell(d, In(b))
  {
  }

  lemma TwoIn(a: string, b: string, ins: seq<Command>, cmd: Command)
    requires a != b && b != "" && |ins| == 1 && FirstDone(a, Disks(true, ins)[1]) && cmd == In(b)
    ensures SecondDone(a, b, Disks(true, ins + [cmd])[2])
  {
    SecondGoesWell(a, b, Disks(true, ins)[1]);
    InMoves(ins, cmd, Disks(true, ins)[1], Disks(true, ins + [cmd])[2]);
    SecondIn(a, b, Disks(true, ins)[1], Disks(true, ins + [cmd])[2]);
  }

  lemma OutMoves(a: string, b: string, ins: seq<Command>, two: Disk)
    requires a != b && |ins| == 2 && two == Disks(true, ins)[2] && SecondDone(a, b, two)
    ensures var disks := Disks(true, ins + [Undo(a, LIVING)] + [Undo(b, LIVING)]);
            && Displaces(disks[3], Undo(b, LIVING))
            && disks[4].fs == map[RolledForward(a, 1) := 2, RolledForward(b, 2) := 0, Live := 1]
  {
    DisksStep(true, ins, Undo(a, LIVING));
    FirstOut(a, b, two);
    DisksStep(true, ins + [Undo(a, LIVING)], Undo(b, LIVING));
    SecondOut(a, b, After(two, Undo(a, LIVING)));
  }

  lemma InsAndOuts(a: string, b: string, ins: seq<Command>)
    requires a != b && b != "" && |ins| == 1 && FirstDone(a, Disks(true, ins)[1])
    ensures var disks := Disks(true, ins + [In(b)] + [Undo(a, LIVING)] + [Undo(b, LIVING)]);
            && Displaces(disks[3], Undo(b, LIVING))
            && disks[4].fs == map[RolledForward(a, 1) := 2, RolledForward(b, 2) := 0, Live := 1]
  {
    var two := Disks(true, ins + [In(b)])[2];
    TwoIn(a, b, ins, In(b));
    OutMoves(a, b, ins + [In(b)], two);
  }

  lemma OutOfOrderMoves(a: string, b: string)
    requires a != b && a != "" && b != ""
    ensures var disks := Disks(true, OutOfOrder(a, b));
            && Displaces(disks[3], OutOfOrder(a, b)[3])
            && disks[4].fs == map[RolledForward(a, 1) := 2, RolledForward(b, 2) := 0, Live := 1]
  {
    OneIn(a);
    InsAndOuts(a, b, [In(a)]);
    assert [In(a)] + [In(b)] + [Undo(a, LIVING)] + [Undo(b, LIVING)] == OutOfOrder(a, b);
  }

  /** Whatever the two migrations are called, the history ends with the original set aside. */
  method UndoOutOfOrder(a: string, b: string) returns (c: Coordinator, ghost disks: seq<Disk>)
    requires a != b && a != "" && b != ""
    ensures disks == Disks(true, OutOfOrder(a, b)) && EverDisplaced(OutOfOrder(a, b), disks)
    ensures c.OnDisk() == disks[4]
    ensures c.fs == map[RolledForward(a, 1) := 2, RolledForward(b, 2) := 0, Live := 1]
  {
    c, disks := History(true, OutOfOrder(a, b));
    OutOfOrderMoves(a, b);
  }

  /** A rollback of a promotion restores the artifact that was live and keeps the promoted
      one under the rolled-forward name; nothing else moves. */
  lemma RollbackUndoesPromotion(fs: Filesystem, id: string, token: nat)
    requires Live in fs && Staging(id, token) in fs
    requires Rollback(id, token) !in fs && RolledForward(id, token) !in fs
    ensures Restored(Swapped(fs, id, token), id, token) == Replace(fs, Staging(id, token), RolledForward(id, token))
  {
    var there, back := Swapped(fs, id, token), Replace(fs, Staging(id, token), RolledForward(id, token));
    assert Restored(there, id, token).Keys == back.Keys;
  }
}

/** The names those paths have on disk. */
module PathNames {
  import opened KuzuMigration

  function Digits(n: nat): (s: string)
    ensures |s| > 0
    ensures forall i | 0 <= i < |s| :: '0' <= s[i] <= '9'
  {
    (if n < 10 then [] else Digits(n / 10)) + ['0' + (n % 10) as char]
  }

  function Kind(p: Path): string {
    match p
    case Live => ""
    case Staging(_, _) => "staging-"
    case Rollback(_, _) => "rollback-"
    case RolledForward(_, _) => "rolled-forward-"
  }

  function Name(live: string, p: Path): string {
    if p.Live? then live else "." + live + "." + (Kind(p) + (p.id + "-" + Digits(p.token)))
  }

  lemma {:induction false} DigitsInjective(m: nat, n: nat)
    requires Digits(m) == Digits(n)
    ensures m == n
  {
    var a, b := Digits(m), Digits(n);
    assert a[|a| - 1] == b[|b| - 1];
    assert a[..|a| - 1] == (if m < 10 then [] else Digits(m / 10));
    assert b[..|b| - 1] == (if n < 10 then [] else Digits(n / 10));
    assert (m % 10) as char == (n % 10) as char;
    if m >= 10 { DigitsInjective(m / 10, n / 10); }
  }

  lemma LastDash(head: string, digits: string, k: nat)
    requires forall i | 0 <= i < |digits| :: digits[i] != '-'
    ensures |head| < k < |head + "-" + digits| ==> (head + "-" + digits)[k] != '-'
  {
    if |head| < k < |head + "-" + digits| {
      assert (head + "-" + digits)[k] == digits[k - |head| - 1];
    }
  }

  /** The last '-' separates the migration id from the token, even when the id itself
      contains dashes and digits. */
  lemma SuffixInjective(i: string, t: nat, j: string, u: nat)
    requires i + "-" + Digits(t) == j + "-" + Digits(u)
    ensures i == j && t == u
  {
    var s := i + "-" + Digits(t);
    LastDash(i, Digits(t), |j|);
    LastDash(j, Digits(u), |i|);
    assert s[..|i|] == i && s[..|j|] == j;
    assert s[|i| + 1..] == Digits(t) && s[|j| + 1..] == Digits(u);
    DigitsInjective(t, u);
  }

  lemma KindsDiffer(p: Path, q: Path, x: string, y: string)
    requires !p.Live? && !q.Live? && Kind(p) + x == Kind(q) + y
    ensures Kind(p) == Kind(q) && x == y
  {
    var (a, b) := (Kind(p) + x, Kind(q) + y);
    assert a[0] == Kind(p)[0] && b[0] == Kind(q)[0];
    assert a[4] == Kind(p)[4] && b[4] == Kind(q)[4];
    assert a[|Kind(p)|..] == x && b[|Kind(q)|..] == y;
  }

  /** Different paths have different names, for every live name, every migration id and
      every token: modelling the directory as a map over `Path` loses no collision. */
  lemma NamesAreDistinct(live: string, p: Path, q: Path)
    requires Name(live, p) == Name(live, q)
    ensures p == q
  {
    if !p.Live? && !q.Live? {
      var (x, y) := (p.id + "-" + Digits(p.token), q.id + "-" + Digits(q.token));
      assert Name(live, p)[|live| + 2..] == Kind(p) + x;
      assert Name(live, q)[|live| + 2..] == Kind(q) + y;
      KindsDiffer(p, q, x, y);
      SuffixInjective(p.id, p.token, q.id, q.token);
    }
  }
}
