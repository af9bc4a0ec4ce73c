// The boundary around a run: whatever the steps throw is caught here, the
// user's lock is released and the failure is written into the report. The
// handlers for sync errors and unknown errors live in syncException.ts,
// which is not part of this model; whatever they do or throw is swallowed.
module ExceptionFilter {
  import opened Wrappers
  import opened Entities
  import opened Errors
  import opened Tables
  import opened Stores
  import opened Context
  import opened Text

  /** The row the boundary writes: the lock released. */
  function Unlocked(): User -> User
  {
    (u: User) => u.(isWork := false)
  }

  /**
   * The report after a caught failure: marked failed, and given the code of
   * the error when it is a sync error. Nothing else in it changes.
   */
  function Reported(r: WorkerResult, err: Failure): (q: WorkerResult)
  {
    r.(fail := true, failReason := if IsSyncError(err) then Some(err.code) else r.failReason)
  }

  /**
   * `workerExceptionFilter`. `caught` is how the wrapped steps ended;
   * `userWrite` is how the database answers the write of `isWork: false`.
   * A failure of that write is the only failure that escapes; the report
   * is then left as it was.
   */
  method WorkerExceptionFilter(ctx: WorkContext, store: Store, caught: Outcome<Failure>, userWrite: Outcome<Failure>)
    returns (r: Outcome<Failure>)
    requires ctx.user.Some?
    modifies ctx`result, store`users
    ensures caught.Pass? ==> r == Pass && ctx.result == old(ctx.result) && store.users == old(store.users)
    ensures caught.Fail? && userWrite.Fail? ==>
              r == userWrite && ctx.result == old(ctx.result) && store.users == old(store.users)
    ensures caught.Fail? && userWrite.Pass? ==>
              r == Pass && ctx.result == Reported(old(ctx.result), caught.error) &&
              store.users == UpdateRow(old(store.users), ctx.user.value.id, Unlocked())
  {
    if caught.Pass? {
      return Pass;
    }
    if userWrite.Fail? {
      return userWrite;
    }
    store.users := UpdateRow(store.users, ctx.user.value.id, Unlocked());
    ctx.result := ctx.result.(fail := true);
    if IsSyncError(caught.error) {
      ctx.result := ctx.result.(failReason := Some(caught.error.code));
    }
    return Pass;
  }

  /**
   * A caught failure always marks the report failed; its fail reason is the
   * error's code for a sync error and stays what it was otherwise, and no
   * other field of the report changes.
   */
  lemma ReportedFailure(r: WorkerResult, err: Failure)
    ensures Reported(r, err).fail
    ensures IsSyncError(err) ==> Reported(r, err).failReason == Some(err.code)
    ensures !IsSyncError(err) ==> Reported(r, err).failReason == r.failReason
    ensures Reported(r, err).(fail := r.fail, failReason := r.failReason) == r
  {
  }

  /** The report line of a caught failure says FAIL in its second field. */
  lemma ReportedLineSaysFail(userId: int, r: WorkerResult, err: Failure, elapsed: string)
    requires ' ' !in elapsed
    ensures var words := Split(SimpleResponse(userId, Reported(r, err), elapsed), ' ');
            |words| == 11 && words[1] == "FAIL"
  {
    SimpleResponseFields(userId, Reported(r, err), elapsed);
  }

  /**
   * Whatever the row held before, the boundary leaves the user unlocked and
   * every other row as it was.
   */
  lemma UnlockedReleasesLock(users: map<int, User>, id: int)
    ensures var after := UpdateRow(users, id, Unlocked());
            after.Keys == users.Keys &&
            (id in users ==> !after[id].isWork && after[id].(isWork := users[id].isWork) == users[id]) &&
            (forall k :: k in users && k != id ==> after[k] == users[k])
  {
  }
}
