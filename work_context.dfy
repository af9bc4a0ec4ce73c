// The state of one run of the worker: the sync window, the user and its
// calendars, the date range to sync, and the result report that the steps
// fill in as they go.
module Context {
  import opened Wrappers
  import opened Entities
  import opened Errors
  import opened Environment
  import opened Clock
  import opened Text
  import Seqs

  // ---- the result report ----

  datatype Step =
    | InitStep | StartSyncStep | ValidationStep | EraseDeletedEventStep
    | SyncEventsStep | SyncNewCalendarStep | InitAccountStep | EndSyncStep

  /** The name a step is reported under. */
  function StepName(s: Step): (n: string)
    ensures ' ' !in n && |n| > 0
  {
    match s
    case InitStep => "init"
    case StartSyncStep => "startSync"
    case ValidationStep => "validation"
    case EraseDeletedEventStep => "eraseDeletedEvent"
    case SyncEventsStep => "syncEvents"
    case SyncNewCalendarStep => "syncNewCalendar"
    case InitAccountStep => "initAccount"
    case EndSyncStep => "endSync"
  }

  lemma StepNameInjective(a: Step, b: Step)
    requires StepName(a) == StepName(b)
    ensures a == b
  {
  }

  /** What the report records for a calendar connected during the run. */
  datatype NewCalendarEntry = NewCalendarEntry(id: int, gCalId: string, gCalName: string, eventCount: int)

  /**
   * The report. `syncNewCalendar` is keyed by the calendar id written as a
   * string; `failReason` is absent until a sync error is caught.
   */
  datatype WorkerResult = WorkerResult(
    step: Step,
    fail: bool,
    failReason: Option<SyncCode>,
    eraseNotion: int,
    eraseEventLink: int,
    gCalCalendarCount: int,
    notion2GCalCount: int,
    gCal2NotionCount: int,
    syncNewCalendar: seq<(string, NewCalendarEntry)>,
    simpleResponse: string)

  /** The report a fresh context starts with. */
  function InitialResult(): (r: WorkerResult)
    ensures r.step == InitStep && !r.fail && r.failReason.None?
    ensures r.eraseNotion == -1 && r.eraseEventLink == -1
    ensures r.gCalCalendarCount == -1 && r.notion2GCalCount == -1 && r.gCal2NotionCount == -1
    ensures r.syncNewCalendar == [] && r.simpleResponse == ""
  {
    WorkerResult(InitStep, false, None, -1, -1, -1, -1, -1, [], "")
  }

  /** The event counts of the new-calendar entries, added up. */
  function EventCountSum(entries: seq<(string, NewCalendarEntry)>): int
  {
    if |entries| == 0 then 0 else entries[0].1.eventCount + EventCountSum(entries[1..])
  }

  /**
   * The fields of `simpleResponse`, in order. The last one is the elapsed
   * time, given already formatted.
   */
  function SimpleFields(userId: int, r: WorkerResult, elapsed: string): (f: seq<string>)
    ensures |f| == 11
    ensures f[0] == IntToString(userId) && f[2] == StepName(r.step) && f[10] == elapsed
    ensures f[1] == (if r.fail then "FAIL" else "SUCCESS")
    ensures f[3] == IntToString(r.eraseNotion) && f[4] == IntToString(r.eraseEventLink)
    ensures f[5] == IntToString(r.gCalCalendarCount)
    ensures f[6] == IntToString(r.gCal2NotionCount) && f[7] == IntToString(r.notion2GCalCount)
    ensures f[8] == IntToString(|r.syncNewCalendar|) && f[9] == IntToString(EventCountSum(r.syncNewCalendar))
  {
    [IntToString(userId), if r.fail then "FAIL" else "SUCCESS", StepName(r.step),
     IntToString(r.eraseNotion), IntToString(r.eraseEventLink),
     IntToString(r.gCalCalendarCount), IntToString(r.gCal2NotionCount), IntToString(r.notion2GCalCount),
     IntToString(|r.syncNewCalendar|), IntToString(EventCountSum(r.syncNewCalendar)), elapsed]
  }

  /** `updateSimpleResult`: the fields joined with single spaces. */
  function SimpleResponse(userId: int, r: WorkerResult, elapsed: string): string
  {
    Join(SimpleFields(userId, r, elapsed), " ")
  }

  lemma IntToStringNoSpace(i: int)
    ensures ' ' !in IntToString(i)
  {
    var s := IntToString(i);
    assert forall k :: 0 <= k < |s| ==> s[k] == '-' || '0' <= s[k] <= '9';
  }

  /**
   * The report line can be read back: split at its spaces it gives the fields
   * in their order, so its second word tells failure from success.
   */
  lemma SimpleResponseFields(userId: int, r: WorkerResult, elapsed: string)
    requires ' ' !in elapsed
    ensures Split(SimpleResponse(userId, r, elapsed), ' ') == SimpleFields(userId, r, elapsed)
    ensures Split(SimpleResponse(userId, r, elapsed), ' ')[1] == "FAIL" <==> r.fail
  {
    var f := SimpleFields(userId, r, elapsed);
    IntToStringNoSpace(userId);
    IntToStringNoSpace(r.eraseNotion);
    IntToStringNoSpace(r.eraseEventLink);
    IntToStringNoSpace(r.gCalCalendarCount);
    IntToStringNoSpace(r.gCal2NotionCount);
    IntToStringNoSpace(r.notion2GCalCount);
    IntToStringNoSpace(|r.syncNewCalendar|);
    IntToStringNoSpace(EventCountSum(r.syncNewCalendar));
    assert forall k :: 0 <= k < |f| ==> ' ' !in f[k];
    SplitJoin(f, ' ');
    assert [' '] == " ";
  }

  // ---- configuration and calendars ----

  datatype SyncConfig = SyncConfig(timeMin: string, timeMax: string)

  /**
   * `getInitConfig`: a sync year of 0 means the whole range; otherwise the
   * range starts on the first of January of the year before, 01:00 at +09:00.
   */
  function GetInitConfig(user: User, env: Env, lib: DateLib): (c: SyncConfig)
    ensures user.syncYear == 0 ==> c.timeMin == env.minDate
    ensures user.syncYear != 0 ==> c.timeMin == lib.iso(IntToString(user.syncYear - 1) + "-01-01T01:00:00+09:00")
    ensures c.timeMax == env.maxDate
  {
    SyncConfig(
      if user.syncYear == 0 then env.minDate
      else lib.iso(IntToString(user.syncYear - 1) + "-01-01T01:00:00+09:00"),
      env.maxDate)
  }

  function ConnectedCalendars(cs: seq<Calendar>): seq<Calendar>
  {
    Seqs.Filter(cs, (c: Calendar) => c.status == Connected)
  }

  function WriteableCalendars(cs: seq<Calendar>): seq<Calendar>
  {
    Seqs.Filter(ConnectedCalendars(cs), (c: Calendar) => c.accessRole != Reader)
  }

  /** The connected calendars are the CONNECTED ones; the writeable ones the connected ones a reader cannot only read. */
  lemma CalendarSplit(cs: seq<Calendar>)
    ensures forall c :: c in ConnectedCalendars(cs) <==> c in cs && c.status == Connected
    ensures forall c :: c in WriteableCalendars(cs) <==> c in cs && c.status == Connected && c.accessRole != Reader
    ensures |WriteableCalendars(cs)| <= |ConnectedCalendars(cs)| <= |cs|
  {
  }

  // ---- the context ----

  class WorkContext {
    const workerId: string
    const userId: int
    const startedAt: int
    /** The window is `[periodStart, periodEnd)`; `None` is an invalid date. */
    var periodStart: Option<int>
    const periodEnd: int
    var config: Option<SyncConfig>
    var result: WorkerResult
    var user: Option<User>
    var calendars: seq<Calendar>
    var connectedCalendars: seq<Calendar>
    var writeableCalendars: seq<Calendar>
    /** The steps the report has been set to, in order. */
    ghost var trace: seq<Step>

    /** `new WorkContext(workerId, userId)` at time `now`. */
    constructor(workerId: string, userId: int, now: int)
      ensures this.workerId == workerId && this.userId == userId && startedAt == now
      ensures periodStart.None? && periodEnd == TruncateToMinute(now)
      ensures result == InitialResult() && user.None? && config.None?
      ensures calendars == [] && connectedCalendars == [] && writeableCalendars == [] && trace == []
    {
      this.workerId := workerId;
      this.userId := userId;
      startedAt := now;
      periodStart := None;
      periodEnd := TruncateToMinute(now);
      config := None;
      result := InitialResult();
      user := None;
      calendars := [];
      connectedCalendars := [];
      writeableCalendars := [];
      trace := [];
    }

    /** `period.start >= period.end`; false when the start is an invalid date. */
    predicate WindowEmpty()
      reads this
    {
      periodStart.Some? && periodStart.value >= periodEnd
    }

    /** An instant lies in the half-open window. */
    predicate InWindow(t: int)
      reads this
    {
      periodStart.Some? && periodStart.value <= t < periodEnd
    }

    /** `setUser`: the window starts at the user's last sync. */
    method SetUser(u: User, env: Env, lib: DateLib)
      modifies this`user, this`periodStart, this`config
      ensures user == Some(u) && periodStart == u.lastCalendarSync
      ensures config == Some(GetInitConfig(u, env, lib))
    {
      user := Some(u);
      periodStart := u.lastCalendarSync;
      config := Some(GetInitConfig(u, env, lib));
    }

    /** `setCalendars`. */
    method SetCalendars(cs: seq<Calendar>)
      modifies this`calendars, this`connectedCalendars, this`writeableCalendars
      ensures calendars == cs && connectedCalendars == ConnectedCalendars(cs)
      ensures writeableCalendars == WriteableCalendars(cs)
    {
      calendars := cs;
      connectedCalendars := ConnectedCalendars(cs);
      writeableCalendars := WriteableCalendars(cs);
    }

    /** `context.result.step = s`. */
    method SetStep(s: Step)
      modifies this`result, this`trace
      ensures result == old(result).(step := s) && trace == old(trace) + [s]
    {
      result := result.(step := s);
      trace := trace + [s];
    }

    /** `getResult`: the report line is rewritten, then the report is returned. */
    method GetResult(elapsed: string) returns (r: Result<WorkerResult, Failure>)
      modifies this`result
      ensures user.None? ==> r == Err(TypeError("Cannot read properties of undefined (reading 'id')")) && result == old(result)
      ensures user.Some? ==> result == old(result).(simpleResponse := SimpleResponse(user.value.id, old(result), elapsed))
      ensures user.Some? ==> r == Ok(result)
    {
      if user.None? {
        return Err(TypeError("Cannot read properties of undefined (reading 'id')"));
      }
      result := result.(simpleResponse := SimpleResponse(user.value.id, result, elapsed));
      return Ok(result);
    }
  }

  /** The window is empty exactly when it holds no instant, and then validation is skipped. */
  lemma WindowEmptyHoldsNothing(c: WorkContext)
    requires c.periodStart.Some?
    ensures c.WindowEmpty() <==> forall t :: !c.InWindow(t)
  {
    if !c.WindowEmpty() {
      assert c.InWindow(c.periodStart.value);
    }
  }
}
