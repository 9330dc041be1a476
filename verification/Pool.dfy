/** The backup pool (internal/backup/pool.go): one goroutine per job, a semaphore channel
    around the run, a mutex around the bookkeeping, every interleaving. */
module Pool {
  import opened Wrappers
  import opened Outcomes

  /** What the runner hands back: a record, unless it refused the job, and an error or not. */
  datatype Record = Record(status: Status, untracked: bool)

  datatype Returned = Returned(record: Option<Record>, failed: bool)

  /** A job without a record is booked as failed. */
  function Booked(o: Returned): Record {
    if o.record.Some? then o.record.value else Record(Failed, false)
  }

  /** The three-way switch. */
  predicate CountsAsSuccess(o: Returned) {
    var r := Booked(o);
    r.status == Success && (r.untracked || !o.failed)
  }

  datatype Tally = Tally(success: nat, failure: nat, untracked: nat)

  function Bump(t: Tally, o: Returned): Tally {
    Tally(t.success + (if CountsAsSuccess(o) then 1 else 0),
          t.failure + (if CountsAsSuccess(o) then 0 else 1),
          t.untracked + if Booked(o).untracked then 1 else 0)
  }

  /** Where a goroutine is. The counters are read and written in two steps: nothing but the
      mutex keeps them consistent. */
  datatype Stage =
    | Waiting
    | InRun
    | Back(o: Returned)
    | Locked(o: Returned)
    | Filed(o: Returned)
    | Loaded(o: Returned, seen: Tally)
    | Counted(o: Returned)
    | Unlocked(o: Returned)
    | Finished(o: Returned)

  predicate HoldsSlot(g: Stage) {
    !g.Waiting? && !g.Finished?
  }

  predicate HoldsMutex(g: Stage) {
    g.Locked? || g.Filed? || g.Loaded? || g.Counted?
  }

  predicate HasFiled(g: Stage) {
    g.Filed? || g.Loaded? || HasCounted(g)
  }

  predicate HasCounted(g: Stage) {
    g.Counted? || g.Unlocked? || g.Finished?
  }

  datatype State = State(limit: nat, slots: nat, owner: Option<nat>, gs: seq<Stage>, runs: seq<Option<Record>>, tally: Tally)

  /** The clamp: a limit out of range means one slot per job. */
  function Limit(maxParallel: int, jobs: nat): (limit: nat)
    ensures jobs > 0 ==> 1 <= limit <= jobs
    ensures 1 <= maxParallel <= jobs ==> limit == maxParallel
  {
    if maxParallel <= 0 || maxParallel > jobs then jobs else maxParallel
  }

  function Start(maxParallel: int, jobs: nat): State {
    State(Limit(maxParallel, jobs), 0, None, seq(jobs, _ => Waiting), seq(jobs, _ => None), Tally(0, 0, 0))
  }

  // ----- steps -----

  /** Goroutine `i` can take its next step. */
  predicate Enabled(s: State, i: nat) {
    && i < |s.gs| && |s.runs| == |s.gs|
    && match s.gs[i]
       case Waiting => s.slots < s.limit
       case Back(_) => s.owner.None?
       case Finished(_) => false
       case Unlocked(_) => s.slots > 0
       case _ => true
  }

  /** That step. `o` is what the runner hands back, should this be the step it returns in. */
  function Step(s: State, i: nat, o: Returned): State
    requires Enabled(s, i)
  {
    match s.gs[i]
    case Waiting => s.(gs := s.gs[i := InRun], slots := s.slots + 1)
    case InRun => s.(gs := s.gs[i := Back(o)])
    case Back(r) => s.(gs := s.gs[i := Locked(r)], owner := Some(i))
    case Locked(r) => s.(gs := s.gs[i := Filed(r)], runs := s.runs[i := Some(Booked(r))])
    case Filed(r) => s.(gs := s.gs[i := Loaded(r, s.tally)])
    case Loaded(r, seen) => s.(gs := s.gs[i := Counted(r)], tally := Bump(seen, r))
    case Counted(r) => s.(gs := s.gs[i := Unlocked(r)], owner := None)
    case Unlocked(r) => s.(gs := s.gs[i := Finished(r)], slots := s.slots - 1)
    case Finished(_) => s
  }

  // ----- counting -----

  function Count(gs: seq<Stage>, p: Stage -> bool): (n: nat)
    ensures n <= |gs|
  {
    if gs == [] then 0 else Count(gs[..|gs| - 1], p) + if p(gs[|gs| - 1]) then 1 else 0
  }

  lemma {:induction false} CountUpdate(gs: seq<Stage>, i: nat, g: Stage, p: Stage -> bool)
    requires i < |gs|
    ensures Count(gs[i := g], p) == Count(gs, p) - (if p(gs[i]) then 1 else 0) + (if p(g) then 1 else 0)
  {
    var k := |gs| - 1;
    if i == k {
      assert gs[i := g][..k] == gs[..k];
    } else {
      assert gs[i := g][..k] == gs[..k][i := g];
      CountUpdate(gs[..k], i, g, p);
    }
  }

  lemma {:induction false} CountNone(gs: seq<Stage>, p: Stage -> bool)
    requires forall i :: 0 <= i < |gs| ==> !p(gs[i])
    ensures Count(gs, p) == 0
  {
    if gs != [] {
      CountNone(gs[..|gs| - 1], p);
    }
  }

  /** Fewer than all: someone is not counted. */
  lemma {:induction false} CountAll(gs: seq<Stage>, p: Stage -> bool)
    requires forall i :: 0 <= i < |gs| ==> p(gs[i])
    ensures Count(gs, p) == |gs|
  {
    if gs != [] {
      CountAll(gs[..|gs| - 1], p);
    }
  }

  lemma {:induction false} CountPositive(gs: seq<Stage>, p: Stage -> bool, i: nat)
    requires i < |gs| && p(gs[i])
    ensures Count(gs, p) > 0
  {
    if i < |gs| - 1 {
      CountPositive(gs[..|gs| - 1], p, i);
    }
  }

  lemma {:induction false} CountWithin(gs: seq<Stage>, p: Stage -> bool, q: Stage -> bool)
    requires forall g :: p(g) ==> q(g)
    ensures Count(gs, p) <= Count(gs, q)
  {
    if gs != [] {
      CountWithin(gs[..|gs| - 1], p, q);
    }
  }

  const SLOT := (g: Stage) => HoldsSlot(g)
  const WON := (g: Stage) => HasCounted(g) && CountsAsSuccess(g.o)
  const LOST := (g: Stage) => HasCounted(g) && !CountsAsSuccess(g.o)
  const GAP := (g: Stage) => HasCounted(g) && Booked(g.o).untracked
  const RUNNING := (g: Stage) => g.InRun?

  // ----- the invariant -----

  predicate SlotsRight(s: State) {
    s.slots == Count(s.gs, SLOT) && s.slots <= s.limit
  }

  predicate MutexRight(s: State) {
    && (s.owner.Some? ==> s.owner.value < |s.gs|)
    && forall i :: 0 <= i < |s.gs| ==> (HoldsMutex(s.gs[i]) <==> s.owner == Some(i))
  }

  predicate RunsRight(s: State) {
    && |s.runs| == |s.gs|
    && forall i :: 0 <= i < |s.gs| ==> s.runs[i] == if HasFiled(s.gs[i]) then Some(Booked(s.gs[i].o)) else None
  }

  predicate TallyRight(s: State) {
    && s.tally == Tally(Count(s.gs, WON), Count(s.gs, LOST), Count(s.gs, GAP))
    && forall i :: 0 <= i < |s.gs| && s.gs[i].Loaded? ==> s.gs[i].seen == s.tally
  }

  predicate Inv(s: State) {
    SlotsRight(s) && MutexRight(s) && RunsRight(s) && TallyRight(s)
  }

  lemma {:induction false} StartInv(maxParallel: int, jobs: nat)
    ensures Inv(Start(maxParallel, jobs))
  {
    var s := Start(maxParallel, jobs);
    CountNone(s.gs, SLOT);
    CountNone(s.gs, WON);
    CountNone(s.gs, LOST);
    CountNone(s.gs, GAP);
  }

  lemma {:induction false} StepSlots(s: State, i: nat, o: Returned)
    requires SlotsRight(s) && Enabled(s, i)
    ensures SlotsRight(Step(s, i, o))
  {
    CountUpdate(s.gs, i, Step(s, i, o).gs[i], SLOT);
  }

  /** A step changes a count by what the one goroutine makes of it. */
  lemma {:induction false} StepCount(s: State, i: nat, o: Returned, p: Stage -> bool)
    requires Enabled(s, i)
    ensures var g := Step(s, i, o).gs[i];
            Count(Step(s, i, o).gs, p) == Count(s.gs, p) - (if p(s.gs[i]) then 1 else 0) + (if p(g) then 1 else 0)
  {
    CountUpdate(s.gs, i, Step(s, i, o).gs[i], p);
  }

  lemma {:induction false} StepCounts(s: State, i: nat, o: Returned)
    requires TallyRight(s) && Enabled(s, i)
    ensures var t := Step(s, i, o); t.tally == Tally(Count(t.gs, WON), Count(t.gs, LOST), Count(t.gs, GAP))
  {
    StepCount(s, i, o, WON);
    StepCount(s, i, o, LOST);
    StepCount(s, i, o, GAP);
  }

  /** What a goroutine has loaded is still the tally: nobody else has the mutex. */
  lemma {:induction false} StepLoaded(s: State, i: nat, o: Returned, j: nat)
    requires TallyRight(s) && MutexRight(s) && Enabled(s, i)
    requires j < |s.gs| && Step(s, i, o).gs[j].Loaded?
    ensures Step(s, i, o).gs[j].seen == Step(s, i, o).tally
  {
    if j != i {
      assert HoldsMutex(s.gs[j]) && s.owner == Some(j);
      assert !HoldsMutex(s.gs[i]);
    }
  }

  lemma {:induction false} StepTally(s: State, i: nat, o: Returned)
    requires TallyRight(s) && MutexRight(s) && Enabled(s, i)
    ensures TallyRight(Step(s, i, o))
  {
    StepCounts(s, i, o);
    forall j | 0 <= j < |s.gs| && Step(s, i, o).gs[j].Loaded? ensures Step(s, i, o).gs[j].seen == Step(s, i, o).tally {
      StepLoaded(s, i, o, j);
    }
  }

  lemma {:induction false} StepMutex(s: State, i: nat, o: Returned)
    requires MutexRight(s) && Enabled(s, i)
    ensures MutexRight(Step(s, i, o))
  {
    assert HoldsMutex(s.gs[i]) <==> s.owner == Some(i);
  }

  lemma {:induction false} StepRuns(s: State, i: nat, o: Returned)
    requires RunsRight(s) && Enabled(s, i)
    ensures RunsRight(Step(s, i, o))
  {
  }

  /** Main result: every step of every goroutine keeps the books right. */
  lemma {:induction false} StepInv(s: State, i: nat, o: Returned)
    requires Inv(s) && Enabled(s, i)
    ensures Inv(Step(s, i, o))
  {
    StepSlots(s, i, o);
    StepMutex(s, i, o);
    StepRuns(s, i, o);
    StepTally(s, i, o);
  }

  // ----- runs -----

  datatype Move = Move(who: nat, o: Returned)

  /** The state a schedule leads to, none if a step of it is not enabled. */
  function Play(s: State, moves: seq<Move>): Option<State>
    decreases |moves|
  {
    if moves == [] then Some(s)
    else if Enabled(s, moves[0].who) then Play(Step(s, moves[0].who, moves[0].o), moves[1..])
    else None
  }

  lemma {:induction false} PlayInv(s: State, moves: seq<Move>)
    requires Inv(s) && Play(s, moves).Some?
    ensures Inv(Play(s, moves).value) && Play(s, moves).value.limit == s.limit && |Play(s, moves).value.gs| == |s.gs|
    decreases |moves|
  {
    if moves != [] {
      StepInv(s, moves[0].who, moves[0].o);
      PlayInv(Step(s, moves[0].who, moves[0].o), moves[1..]);
    }
  }

  predicate Over(s: State) {
    forall i :: 0 <= i < |s.gs| ==> s.gs[i].Finished?
  }

  /** Main result: under every interleaving at most `limit` jobs run at a time. */
  lemma {:induction false} NeverMoreThanLimit(maxParallel: int, jobs: nat, moves: seq<Move>)
    requires Play(Start(maxParallel, jobs), moves).Some?
    ensures Count(Play(Start(maxParallel, jobs), moves).value.gs, RUNNING) <= Limit(maxParallel, jobs)
  {
    StartInv(maxParallel, jobs);
    PlayInv(Start(maxParallel, jobs), moves);
    CountWithin(Play(Start(maxParallel, jobs), moves).value.gs, RUNNING, SLOT);
  }

  /** Main result: it never gets stuck. */
  lemma {:induction false} NoDeadlock(s: State)
    requires Inv(s) && s.limit > 0 && !Over(s)
    ensures exists i :: Enabled(s, i)
  {
    if s.owner.Some? {
      assert HoldsMutex(s.gs[s.owner.value]);
      assert Enabled(s, s.owner.value);
    } else if exists i :: 0 <= i < |s.gs| && HoldsSlot(s.gs[i]) {
      var i :| 0 <= i < |s.gs| && HoldsSlot(s.gs[i]);
      CountPositive(s.gs, SLOT, i);
      assert !HoldsMutex(s.gs[i]);
      assert Enabled(s, i);
    } else {
      CountNone(s.gs, SLOT);
      var i :| 0 <= i < |s.gs| && !s.gs[i].Finished?;
      assert Enabled(s, i);
    }
  }

  function Left(g: Stage): nat {
    match g
    case Waiting => 8
    case InRun => 7
    case Back(_) => 6
    case Locked(_) => 5
    case Filed(_) => 4
    case Loaded(_, _) => 3
    case Counted(_) => 2
    case Unlocked(_) => 1
    case Finished(_) => 0
  }

  function TotalLeft(gs: seq<Stage>): nat {
    if gs == [] then 0 else TotalLeft(gs[..|gs| - 1]) + Left(gs[|gs| - 1])
  }

  lemma {:induction false} TotalLeftUpdate(gs: seq<Stage>, i: nat, g: Stage)
    requires i < |gs|
    ensures TotalLeft(gs[i := g]) == TotalLeft(gs) - Left(gs[i]) + Left(g)
  {
    var k := |gs| - 1;
    if i == k {
      assert gs[i := g][..k] == gs[..k];
    } else {
      assert gs[i := g][..k] == gs[..k][i := g];
      TotalLeftUpdate(gs[..k], i, g);
    }
  }

  lemma {:induction false} TotalLeftAtStart(n: nat)
    ensures TotalLeft(seq(n, _ => Waiting)) == 8 * n
  {
    if n > 0 {
      assert seq(n, _ => Waiting)[..n - 1] == seq(n - 1, _ => Waiting);
      TotalLeftAtStart(n - 1);
    }
  }

  lemma {:induction false} NothingLeft(gs: seq<Stage>)
    requires TotalLeft(gs) == 0
    ensures forall i :: 0 <= i < |gs| ==> gs[i].Finished?
  {
    if gs != [] {
      NothingLeft(gs[..|gs| - 1]);
    }
  }

  lemma {:induction false} PlayTime(s: State, moves: seq<Move>)
    requires Play(s, moves).Some?
    ensures TotalLeft(Play(s, moves).value.gs) == TotalLeft(s.gs) - |moves|
    decreases |moves|
  {
    if moves != [] {
      var i := moves[0].who;
      var s' := Step(s, i, moves[0].o);
      TotalLeftUpdate(s.gs, i, s'.gs[i]);
      PlayTime(s', moves[1..]);
    }
  }

  /** Main result: every run ends; it is over after exactly eight steps per job. */
  lemma {:induction false} EveryRunEnds(maxParallel: int, jobs: nat, moves: seq<Move>)
    requires Play(Start(maxParallel, jobs), moves).Some?
    ensures |moves| <= 8 * jobs
    ensures |moves| == 8 * jobs <==> Over(Play(Start(maxParallel, jobs), moves).value)
  {
    var s, e := Start(maxParallel, jobs), Play(Start(maxParallel, jobs), moves).value;
    PlayTime(s, moves);
    TotalLeftAtStart(jobs);
    assert s.gs == seq(jobs, _ => Waiting);
    if TotalLeft(e.gs) == 0 {
      NothingLeft(e.gs);
    } else if Over(e) {
      AllFinished(e.gs);
    }
  }

  lemma {:induction false} AllFinished(gs: seq<Stage>)
    requires forall i :: 0 <= i < |gs| ==> gs[i].Finished?
    ensures TotalLeft(gs) == 0
  {
    if gs != [] {
      AllFinished(gs[..|gs| - 1]);
    }
  }

  /** Main result: when all is over, slot i holds job i's record, every job is counted once
      as success or failure, and the untracked tally counts the untracked records. */
  lemma {:induction false} FinalBooks(maxParallel: int, jobs: nat, moves: seq<Move>)
    requires Play(Start(maxParallel, jobs), moves).Some? && Over(Play(Start(maxParallel, jobs), moves).value)
    ensures var e := Play(Start(maxParallel, jobs), moves).value;
            && |e.runs| == |e.gs| == jobs
            && (forall i :: 0 <= i < jobs ==> e.runs[i] == Some(Booked(e.gs[i].o)))
            && e.tally.success + e.tally.failure == jobs
            && e.tally.success == SuccessesIn(e.gs) && e.tally.untracked == UntrackedIn(e.runs)
  {
    StartInv(maxParallel, jobs);
    PlayInv(Start(maxParallel, jobs), moves);
    var e := Play(Start(maxParallel, jobs), moves).value;
    WonOrLost(e.gs);
    UntrackedCounted(e.gs, e.runs);
  }

  function SuccessesIn(gs: seq<Stage>): nat
    requires forall i :: 0 <= i < |gs| ==> gs[i].Finished?
  {
    if gs == [] then 0 else SuccessesIn(gs[..|gs| - 1]) + if CountsAsSuccess(gs[|gs| - 1].o) then 1 else 0
  }

  function UntrackedIn(runs: seq<Option<Record>>): nat {
    if runs == [] then 0
    else UntrackedIn(runs[..|runs| - 1]) + if runs[|runs| - 1].Some? && runs[|runs| - 1].value.untracked then 1 else 0
  }

  lemma {:induction false} WonOrLost(gs: seq<Stage>)
    requires forall i :: 0 <= i < |gs| ==> gs[i].Finished?
    ensures Count(gs, WON) + Count(gs, LOST) == |gs| && Count(gs, WON) == SuccessesIn(gs)
  {
    if gs != [] {
      WonOrLost(gs[..|gs| - 1]);
    }
  }

  lemma {:induction false} UntrackedCounted(gs: seq<Stage>, runs: seq<Option<Record>>)
    requires |runs| == |gs| && forall i :: 0 <= i < |gs| ==> gs[i].Finished? && runs[i] == Some(Booked(gs[i].o))
    ensures Count(gs, GAP) == UntrackedIn(runs)
  {
    if gs != [] {
      UntrackedCounted(gs[..|gs| - 1], runs[..|gs| - 1]);
    }
  }
}
