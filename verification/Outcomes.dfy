/** What travels between the parts of a backup or restore run: error values as far as
    `errors.Is` and the exit code look at them, and the audit rows. */
module Outcomes {
  import opened Wrappers

  /** The sentinels an error tree may contain. `ContextDone` is context.Canceled or
      context.DeadlineExceeded. */
  datatype Mark = ContextDone | Untracked | RestoreUntracked | RestoreAuditFailed | PreflightBlocked

  /** `exit` is the code of the first execution error in the tree, 0 when there is none. */
  datatype Error = Error(marks: set<Mark>, exit: nat) {
    predicate Is(m: Mark) {
      m in marks
    }
  }

  const PLAIN := Error({}, 0)

  /** `errors.Join`. */
  function Joined(a: Error, b: Error): Error {
    Error(a.marks + b.marks, if a.exit > 0 then a.exit else b.exit)
  }

  const EXIT_UNTRACKED: nat := 3

  /** commandExitCode. */
  function ExitCode(e: Error): nat {
    if e.Is(Untracked) || e.Is(RestoreUntracked) then EXIT_UNTRACKED
    else if e.exit > 0 then e.exit
    else 1
  }

  datatype Status = Running | Success | Partial | Failed | Canceled | DryRun

  datatype Stage = NoStage | Validation | Execution | PostRestore

  datatype Row = Row(status: Status, stage: Stage, untracked: bool)

  /** A row when its run begins. */
  const STARTED := Row(Running, NoStage, false)

  /** What a finished run may leave behind. */
  predicate Terminal(s: Status) {
    s != Running
  }

  /** Database errors carry no sentinel of their own; the write may have timed out. */
  predicate DatabaseError(e: Error) {
    e.marks <= {ContextDone} && e.exit == 0
  }

  /** The audit table. Which calls fail is arbitrary: `fails(n)` says so for the n-th. */
  class Recorder {
    const fails: nat -> Option<Error>
    var calls: nat
    var nextId: nat
    var rows: map<nat, Row>

    ghost predicate Valid()
      reads this
    {
      && nextId > 0 && (forall id :: id in rows ==> 0 < id < nextId)
      && (forall n :: fails(n).Some? ==> DatabaseError(fails(n).value))
    }

    constructor (fails: nat -> Option<Error>)
      requires forall n :: fails(n).Some? ==> DatabaseError(fails(n).value)
      ensures Valid() && rows == map[] && calls == 0 && this.fails == fails
    {
      this.fails := fails;
      calls, nextId, rows := 0, 1, map[];
    }

    /** A new row under a positive id, or no row and an error. */
    method CreateRun(row: Row) returns (id: nat, err: Option<Error>)
      requires Valid()
      modifies this
      ensures Valid() && calls == old(calls) + 1 && err == fails(calls)
      ensures (err.None? <==> id > 0) && (err.Some? ==> DatabaseError(err.value))
      ensures id > 0 ==> id !in old(rows) && rows == old(rows)[id := row]
      ensures id == 0 ==> rows == old(rows)
    {
      calls := calls + 1;
      if fails(calls).Some? {
        return 0, fails(calls);
      }
      id, err := nextId, None;
      rows, nextId := rows[id := row], nextId + 1;
    }

    method UpdateRun(id: nat, row: Row) returns (err: Option<Error>)
      requires Valid() && id in rows
      modifies this
      ensures Valid() && calls == old(calls) + 1 && err == fails(calls) && (err.Some? ==> DatabaseError(err.value))
      ensures rows == if err.None? then old(rows)[id := row] else old(rows)
    {
      calls := calls + 1;
      if fails(calls).Some? {
        return fails(calls);
      }
      rows := rows[id := row];
      return None;
    }
  }
}
