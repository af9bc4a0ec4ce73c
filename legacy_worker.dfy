// The older worker (src/module/worker/index.ts). It is
// written against an earlier generation of the context and the assists, and
// in this revision its calls do not meet them: `init` calls
// `this.context.getInitConfig()`, but `getInitConfig` is a module-level
// function of work.context.ts and not a method of the context, so that call
// throws a TypeError on every run with a user; `validation` calls
// `validationAndRestore` on the worker assist, which does not define it.
// The collaborators are therefore taken here as parameters: each call is
// recorded, may throw (the configuration read always does in this
// revision, see InitConfigEndsRun), and the two listings answer given
// records. What the revision itself decides is modelled: the order of the
// steps, the branch on the user's last sync, the unfiltered event sync and
// the choice of the pending calendars.
module LegacyWorkers {
  import opened Wrappers
  import opened Entities
  import opened Errors
  import opened Tables
  import opened Stores
  import opened Context
  import opened Clock
  import NotionEvents
  import GoogleEvents
  import ExceptionFilter
  import WorkerAssist
  import Workers
  import Validate

  type NotionEventDto = NotionEvents.NotionEventDto
  type GoogleEventDto = GoogleEvents.GoogleEventDto

  /** The calls the revision makes on its collaborators. */
  datatype Collaborator =
    | InitConfig
    | StartSyncUserUpdate
    | ValidationAndRestore
    | EraseDeletedNotionPage
    | EraseDeletedEventLink
    | GetUpdatedPages
    | GetUpdatedEvents
    | CUDPage(event: GoogleEventDto)
    | CUDEvent(page: NotionEventDto)
    | SyncNewCalendar(calendar: Calendar)
    | EndSyncUserUpdate
    | DeleteOldErrorLogs

  /** What a run does, in order: it enters a step of the report, or it calls a collaborator. */
  datatype Action = Enter(step: Step) | Ask(call: Collaborator)

  /**
   * How the collaborators answer: the pages and events the two listings
   * return, and for each call the error it throws, if any.
   */
  datatype Answers = Answers(updatedPages: seq<NotionEventDto>, updatedEvents: seq<GoogleEventDto>,
                             throws: Collaborator -> Option<Failure>)

  predicate Throws(a: Action, ans: Answers)
  {
    a.Ask? && ans.throws(a.call).Some?
  }

  /** The position of the first action that throws, or the length of the plan when none does. */
  function FirstThrow(p: seq<Action>, ans: Answers): (k: nat)
    ensures k <= |p|
    ensures k < |p| ==> Throws(p[k], ans)
  {
    if |p| == 0 then 0
    else if Throws(p[0], ans) then 0
    else 1 + FirstThrow(p[1..], ans)
  }

  /** No action before the first throw throws. */
  lemma {:induction false} FirstThrowSpec(p: seq<Action>, ans: Answers)
    ensures forall i :: 0 <= i < FirstThrow(p, ans) ==> !Throws(p[i], ans)
    decreases |p|
  {
    if |p| > 0 && !Throws(p[0], ans) {
      FirstThrowSpec(p[1..], ans);
      assert forall i :: 1 <= i < |p| ==> p[i] == p[1..][i - 1];
    }
  }

  /** The actions of a plan that are carried out: up to and including the first that throws. */
  function Done(p: seq<Action>, ans: Answers): seq<Action>
  {
    var k := FirstThrow(p, ans);
    if k < |p| then p[..k + 1] else p
  }

  /** How a plan ends: with the error of the first call that throws, or passing. */
  function Ending(p: seq<Action>, ans: Answers): Outcome<Failure>
  {
    var k := FirstThrow(p, ans);
    if k < |p| then Fail(ans.throws(p[k].call).value) else Pass
  }

  /** The step the report shows after the actions `p`, starting from `s`: the last one entered. */
  function StepOf(s: Step, p: seq<Action>): Step
  {
    if |p| == 0 then s
    else if p[|p| - 1].Enter? then p[|p| - 1].step
    else StepOf(s, p[..|p| - 1])
  }

  // ---- the plans of the steps ----

  function InitPlan(): seq<Action>
  {
    [Ask(InitConfig)]
  }

  function StartSyncPlan(): seq<Action>
  {
    [Enter(StartSyncStep), Ask(StartSyncUserUpdate)]
  }

  function ValidationPlan(): seq<Action>
  {
    [Enter(ValidationStep), Ask(ValidationAndRestore)]
  }

  function ErasePlan(): seq<Action>
  {
    [Enter(EraseDeletedEventStep), Ask(EraseDeletedNotionPage), Ask(EraseDeletedEventLink)]
  }

  /** One `CUDPage` per event, in order. */
  function PageWrites(events: seq<GoogleEventDto>): (r: seq<Action>)
    ensures |r| == |events| && forall k :: 0 <= k < |events| ==> r[k] == Ask(CUDPage(events[k]))
  {
    seq(|events|, (k: int) requires 0 <= k < |events| => Ask(CUDPage(events[k])))
  }

  /** One `CUDEvent` per page, in order. */
  function EventWrites(pages: seq<NotionEventDto>): (r: seq<Action>)
    ensures |r| == |pages| && forall k :: 0 <= k < |pages| ==> r[k] == Ask(CUDEvent(pages[k]))
  {
    seq(|pages|, (k: int) requires 0 <= k < |pages| => Ask(CUDEvent(pages[k])))
  }

  /** One `syncNewCalendar` per calendar, in order. */
  function CalendarSyncs(cs: seq<Calendar>): (r: seq<Action>)
    ensures |r| == |cs| && forall k :: 0 <= k < |cs| ==> r[k] == Ask(SyncNewCalendar(cs[k]))
  {
    seq(|cs|, (k: int) requires 0 <= k < |cs| => Ask(SyncNewCalendar(cs[k])))
  }

  function SyncEventsHead(): seq<Action>
  {
    [Enter(SyncEventsStep), Ask(GetUpdatedPages), Ask(GetUpdatedEvents)]
  }

  function SyncEventsPlan(ans: Answers): seq<Action>
  {
    SyncEventsHead() + PageWrites(ans.updatedEvents) + EventWrites(ans.updatedPages)
  }

  /** `syncNewCalendars` and `initAccount` differ only in the step they enter. */
  function NewCalendarsPlan(step: Step, cs: seq<Calendar>): seq<Action>
  {
    [Enter(step)] + CalendarSyncs(Workers.PendingCalendars(cs))
  }

  function EndSyncPlan(): seq<Action>
  {
    [Enter(EndSyncStep), Ask(EndSyncUserUpdate), Ask(DeleteOldErrorLogs)]
  }

  /** The steps between the validation and `endSync`, by whether the user has synced before. */
  function BranchPlan(initialized: bool, cs: seq<Calendar>, ans: Answers): seq<Action>
  {
    if initialized then ErasePlan() + SyncEventsPlan(ans) + NewCalendarsPlan(SyncNewCalendarStep, cs)
    else NewCalendarsPlan(InitAccountStep, cs)
  }

  function PreparePlan(): seq<Action>
  {
    InitPlan() + StartSyncPlan() + ValidationPlan()
  }

  /** `runSteps` of a run whose user was found. */
  function StepsPlan(initialized: bool, cs: seq<Calendar>, ans: Answers): seq<Action>
  {
    PreparePlan() + (BranchPlan(initialized, cs, ans) + EndSyncPlan())
  }

  /**
   * A run whose configuration read throws, as every run of this revision
   * does, carries out that call alone, ends with its error and enters no
   * step.
   */
  lemma InitConfigEndsRun(initialized: bool, cs: seq<Calendar>, ans: Answers)
    requires ans.throws(InitConfig).Some?
    ensures var p := StepsPlan(initialized, cs, ans);
            Done(p, ans) == [Ask(InitConfig)] && Ending(p, ans) == Fail(ans.throws(InitConfig).value) &&
            forall s :: StepOf(s, Done(p, ans)) == s
  {
    var p := StepsPlan(initialized, cs, ans);
    assert p[0] == Ask(InitConfig);
    assert Done(p, ans) == [Ask(InitConfig)];
    forall s ensures StepOf(s, [Ask(InitConfig)]) == s {
      assert [Ask(InitConfig)][..0] == [];
    }
  }

  /** The steps a plan enters, in order. */
  function Entered(p: seq<Action>): (r: seq<Step>)
  {
    if |p| == 0 then []
    else if p[|p| - 1].Enter? then Entered(p[..|p| - 1]) + [p[|p| - 1].step]
    else Entered(p[..|p| - 1])
  }

  // ---- running a plan ----

  /** The first index of a plan at which an action throws is determined by the actions before it. */
  lemma {:induction false} FirstThrowAt(p: seq<Action>, ans: Answers, k: nat)
    requires k <= |p|
    requires forall i :: 0 <= i < k ==> !Throws(p[i], ans)
    requires k < |p| ==> Throws(p[k], ans)
    ensures FirstThrow(p, ans) == k
  {
    FirstThrowSpec(p, ans);
  }

  /** The last step entered in `a + b` is the last one of `b`, if it enters one. */
  lemma {:induction false} StepOfAppend(s: Step, a: seq<Action>, b: seq<Action>)
    ensures StepOf(s, a + b) == StepOf(StepOf(s, a), b)
    decreases |b|
  {
    if |b| > 0 {
      assert (a + b)[..|a + b| - 1] == a + b[..|b| - 1];
      StepOfAppend(s, a, b[..|b| - 1]);
    } else {
      assert a + b == a;
    }
  }

  /** The steps entered in `a + b` are those of `a`, then those of `b`. */
  lemma {:induction false} EnteredAppend(a: seq<Action>, b: seq<Action>)
    ensures Entered(a + b) == Entered(a) + Entered(b)
    decreases |b|
  {
    if |b| > 0 {
      assert (a + b)[..|a + b| - 1] == a + b[..|b| - 1];
      EnteredAppend(a, b[..|b| - 1]);
    } else {
      assert a + b == a;
    }
  }

  /**
   * Running `a` and then `b`: a throw in `a` ends the run there; otherwise
   * `b` runs in full or up to its own first throw, and the step the report
   * shows is the last one `b` entered, or the last of `a` if `b` entered none.
   */
  lemma Then(s0: Step, a: seq<Action>, b: seq<Action>, ans: Answers)
    ensures Ending(a, ans).Fail? ==> Done(a + b, ans) == Done(a, ans) && Ending(a + b, ans) == Ending(a, ans)
    ensures Ending(a, ans).Pass? ==>
              Done(a, ans) == a && Done(a + b, ans) == a + Done(b, ans) && Ending(a + b, ans) == Ending(b, ans) &&
              StepOf(s0, Done(a + b, ans)) == StepOf(StepOf(s0, a), Done(b, ans))
  {
    var p := a + b;
    var k := FirstThrow(a, ans);
    FirstThrowSpec(a, ans);
    FirstThrowSpec(b, ans);
    if k < |a| {
      assert forall i :: 0 <= i <= k ==> p[i] == a[i];
      FirstThrowAt(p, ans, k);
      assert p[..k + 1] == a[..k + 1];
    } else {
      var j := FirstThrow(b, ans);
      assert forall i :: 0 <= i < |a| ==> p[i] == a[i];
      assert forall i :: 0 <= i < j ==> p[|a| + i] == b[i];
      if j < |b| {
        assert p[|a| + j] == b[j];
        FirstThrowAt(p, ans, |a| + j);
        assert p[..|a| + j + 1] == a + b[..j + 1];
      } else {
        FirstThrowAt(p, ans, |a| + j);
      }
      StepOfAppend(s0, a, Done(b, ans));
    }
  }

  /** A plan of calls alone leaves the step of the report alone. */
  lemma {:induction false} StepOfCalls(s: Step, p: seq<Action>)
    requires forall i :: 0 <= i < |p| ==> p[i].Ask?
    ensures StepOf(s, p) == s
    decreases |p|
  {
    if |p| > 0 {
      StepOfCalls(s, p[..|p| - 1]);
    }
  }

  /** So does the part of such a plan that is carried out. */
  lemma CallsKeepStep(p: seq<Action>, ans: Answers)
    requires forall i :: 0 <= i < |p| ==> p[i].Ask?
    ensures forall s :: StepOf(s, Done(p, ans)) == s
  {
    var d := Done(p, ans);
    assert forall i :: 0 <= i < |d| ==> d[i] == p[i];
    forall s ensures StepOf(s, d) == s {
      StepOfCalls(s, d);
    }
  }

  /**
   * A step entered and then calls: entering never throws, the calls run up
   * to their first throw, and the report shows the step entered.
   */
  lemma EnterSteps(s: Step, q: seq<Action>, ans: Answers)
    requires forall i :: 0 <= i < |q| ==> q[i].Ask?
    ensures Done([Enter(s)] + q, ans) == [Enter(s)] + Done(q, ans) && Ending([Enter(s)] + q, ans) == Ending(q, ans)
    ensures forall s0 :: StepOf(s0, Done([Enter(s)] + q, ans)) == s
  {
    var p := [Enter(s)] + q;
    assert p[1..] == q;
    var k := FirstThrow(q, ans);
    if k < |q| {
      assert p[..k + 2] == [Enter(s)] + q[..k + 1];
    }
    CallsKeepStep(q, ans);
    forall s0 ensures StepOf(s0, Done(p, ans)) == s {
      StepOfAppend(s0, [Enter(s)], Done(q, ans));
    }
  }

  // ---- what the plans promise ----

  /** A step entered and then calls enters that step alone. */
  lemma EnteredEnter(s: Step, q: seq<Action>)
    requires forall i :: 0 <= i < |q| ==> q[i].Ask?
    ensures Entered([Enter(s)] + q) == [s]
  {
    NoStepsInCalls(q);
    EnteredAppend([Enter(s)], q);
    assert Entered([Enter(s)]) == [s] by {
      assert [Enter(s)][..0] == [];
    }
  }

  lemma EnteredPrepare()
    ensures Entered(PreparePlan()) == [StartSyncStep, ValidationStep]
  {
    NoStepsInCalls(InitPlan());
    EnteredEnter(StartSyncStep, [Ask(StartSyncUserUpdate)]);
    assert [Enter(StartSyncStep)] + [Ask(StartSyncUserUpdate)] == StartSyncPlan();
    EnteredEnter(ValidationStep, [Ask(ValidationAndRestore)]);
    assert [Enter(ValidationStep)] + [Ask(ValidationAndRestore)] == ValidationPlan();
    EnteredAppend(InitPlan(), StartSyncPlan());
    EnteredAppend(InitPlan() + StartSyncPlan(), ValidationPlan());
  }

  lemma EnteredSyncEvents(ans: Answers)
    ensures Entered(SyncEventsPlan(ans)) == [SyncEventsStep]
  {
    var events := PageWrites(ans.updatedEvents) + EventWrites(ans.updatedPages);
    assert forall i :: 0 <= i < |events| ==> events[i].Ask?;
    Validate.SeqAssoc(SyncEventsHead(), PageWrites(ans.updatedEvents), EventWrites(ans.updatedPages));
    assert [Enter(SyncEventsStep)] + ([Ask(GetUpdatedPages), Ask(GetUpdatedEvents)] + events) == SyncEventsHead() + events;
    EnteredEnter(SyncEventsStep, [Ask(GetUpdatedPages), Ask(GetUpdatedEvents)] + events);
  }

  lemma EnteredBranch(initialized: bool, cs: seq<Calendar>, ans: Answers)
    ensures Entered(BranchPlan(initialized, cs, ans) + EndSyncPlan()) == Workers.BranchSteps(false, initialized)
  {
    var pending := CalendarSyncs(Workers.PendingCalendars(cs));
    EnteredEnter(SyncNewCalendarStep, pending);
    EnteredEnter(InitAccountStep, pending);
    EnteredEnter(EraseDeletedEventStep, [Ask(EraseDeletedNotionPage), Ask(EraseDeletedEventLink)]);
    assert [Enter(EraseDeletedEventStep)] + [Ask(EraseDeletedNotionPage), Ask(EraseDeletedEventLink)] == ErasePlan();
    EnteredEnter(EndSyncStep, [Ask(EndSyncUserUpdate), Ask(DeleteOldErrorLogs)]);
    assert [Enter(EndSyncStep)] + [Ask(EndSyncUserUpdate), Ask(DeleteOldErrorLogs)] == EndSyncPlan();
    if initialized {
      EnteredSyncEvents(ans);
      EnteredAppend(ErasePlan(), SyncEventsPlan(ans));
      EnteredAppend(ErasePlan() + SyncEventsPlan(ans), NewCalendarsPlan(SyncNewCalendarStep, cs));
    }
    EnteredAppend(BranchPlan(initialized, cs, ans), EndSyncPlan());
  }

  /** The report goes through the same steps as in the newer worker on a window that is not empty, and never skips. */
  lemma StepsAsPlanned(initialized: bool, cs: seq<Calendar>, ans: Answers)
    ensures Entered(StepsPlan(initialized, cs, ans)) == Workers.PlannedSteps(false, initialized)
  {
    EnteredPrepare();
    EnteredBranch(initialized, cs, ans);
    EnteredAppend(PreparePlan(), BranchPlan(initialized, cs, ans) + EndSyncPlan());
    assert Workers.PlannedSteps(false, initialized) == [StartSyncStep, ValidationStep] + Workers.BranchSteps(false, initialized);
  }

  lemma {:induction false} NoStepsInCalls(p: seq<Action>)
    requires forall i :: 0 <= i < |p| ==> p[i].Ask?
    ensures Entered(p) == []
    decreases |p|
  {
    if |p| > 0 {
      NoStepsInCalls(p[..|p| - 1]);
    }
  }

  /**
   * `syncEvents` hands every updated event to `CUDPage` and every updated
   * page to `CUDEvent`, all of the events before any of the pages: nothing
   * is filtered out.
   */
  lemma EventsBeforePages(ans: Answers)
    ensures var p := SyncEventsPlan(ans);
            (forall e :: e in ans.updatedEvents ==> Ask(CUDPage(e)) in p) &&
            (forall g :: g in ans.updatedPages ==> Ask(CUDEvent(g)) in p) &&
            (forall i, j :: (0 <= i < |p| && 0 <= j < |p| && p[i].Ask? && p[i].call.CUDEvent? &&
                             p[j].Ask? && p[j].call.CUDPage?) ==> j < i)
  {
    var head, pw, ew := SyncEventsHead(), PageWrites(ans.updatedEvents), EventWrites(ans.updatedPages);
    var p := SyncEventsPlan(ans);
    assert |head| == 3;
    forall i | 0 <= i < |p| ensures p[i] == if i < 3 then head[i] else if i < 3 + |pw| then pw[i - 3] else ew[i - 3 - |pw|] {
    }
    forall e | e in ans.updatedEvents ensures Ask(CUDPage(e)) in p {
      var k :| 0 <= k < |ans.updatedEvents| && ans.updatedEvents[k] == e;
      assert p[3 + k] == pw[k];
    }
    forall g | g in ans.updatedPages ensures Ask(CUDEvent(g)) in p {
      var k :| 0 <= k < |ans.updatedPages| && ans.updatedPages[k] == g;
      assert p[3 + |pw| + k] == ew[k];
    }
  }

  /**
   * `syncNewCalendars` and `initAccount` call `syncNewCalendar` on exactly
   * the pending calendars of the run.
   */
  lemma OnlyPendingSynced(step: Step, cs: seq<Calendar>)
    ensures var p := NewCalendarsPlan(step, cs);
            (forall i :: 1 <= i < |p| ==> p[i].Ask? && p[i].call.SyncNewCalendar? &&
                                          p[i].call.calendar in cs && p[i].call.calendar.status == Pending) &&
            (forall c :: c in cs && c.status == Pending ==> Ask(SyncNewCalendar(c)) in p)
  {
    var pending := Workers.PendingCalendars(cs);
    var syncs := CalendarSyncs(pending);
    var p := NewCalendarsPlan(step, cs);
    forall i | 1 <= i < |p|
      ensures p[i].Ask? && p[i].call.SyncNewCalendar? && p[i].call.calendar in cs && p[i].call.calendar.status == Pending
    {
      assert p[i] == syncs[i - 1];
      assert pending[i - 1] in pending;
    }
    forall c | c in cs && c.status == Pending ensures Ask(SyncNewCalendar(c)) in p {
      assert c in pending;
      var k :| 0 <= k < |pending| && pending[k] == c;
      assert p[k + 1] == syncs[k];
    }
  }

  /** A run stops at the first call that throws and reports its error; the calls before it all answered. */
  lemma StopsAtFirstThrow(p: seq<Action>, ans: Answers)
    ensures var d := Done(p, ans);
            d <= p && (forall i :: 0 <= i < |d| - 1 ==> !Throws(d[i], ans)) &&
            (Ending(p, ans).Pass? <==> d == p && forall i :: 0 <= i < |p| ==> !Throws(p[i], ans)) &&
            (Ending(p, ans).Fail? ==> |d| > 0 && Throws(d[|d| - 1], ans) && Ending(p, ans) == Fail(ans.throws(d[|d| - 1].call).value))
  {
    FirstThrowSpec(p, ans);
  }

  /**
   * The older worker for one user, on the same context and store as the
   * newer one. `log` records what the run has done, in order.
   */
  class LegacyWorker {
    const context: WorkContext
    const store: Store
    const answers: Answers
    var log: seq<Action>

    /**
     * `new Worker(userId, workerId)` at time `now`. The start and the
     * reference time, `now` with its seconds and milliseconds zeroed, are
     * handed to the context, whose constructor takes neither and computes
     * the same from the clock.
     */
    constructor(userId: int, workerId: string, now: int, store: Store, answers: Answers)
      ensures fresh(context) && context.userId == userId && context.workerId == workerId && context.startedAt == now
      ensures context.periodStart.None? && context.periodEnd == TruncateToMinute(now)
      ensures context.periodEnd % MinuteMs == 0 && context.periodEnd <= now < context.periodEnd + MinuteMs
      ensures context.result == InitialResult() && context.user.None? && context.config.None?
      ensures this.store == store && this.answers == answers && log == []
    {
      context := new WorkContext(workerId, userId, now);
      this.store := store;
      this.answers := answers;
      log := [];
    }

    /** `this.context.result.step = step`. */
    method EnterStep(s: Step)
      modifies this`log, context`result
      ensures log == old(log) + [Enter(s)] && context.result == old(context.result).(step := s)
    {
      log := log + [Enter(s)];
      context.result := context.result.(step := s);
    }

    /** One call on a collaborator, which may throw. */
    method AskOne(c: Collaborator) returns (o: Outcome<Failure>)
      modifies this`log
      ensures log == old(log) + [Ask(c)]
      ensures o == if answers.throws(c).Some? then Fail(answers.throws(c).value) else Pass
    {
      log := log + [Ask(c)];
      var thrown := answers.throws(c);
      o := if thrown.Some? then Fail(thrown.value) else Pass;
    }

    /**
     * The `for … of` loops of the revision, and its runs of awaited calls:
     * each call in turn, up to the first that throws.
     */
    method AskEach(p: seq<Action>) returns (o: Outcome<Failure>)
      requires forall i :: 0 <= i < |p| ==> p[i].Ask?
      modifies this`log
      ensures log == old(log) + Done(p, answers) && o == Ending(p, answers)
    {
      var i := 0;
      while i < |p|
        invariant 0 <= i <= |p|
        invariant log == old(log) + p[..i]
        invariant forall k :: 0 <= k < i ==> !Throws(p[k], answers)
      {
        o := AskOne(p[i].call);
        assert p[..i + 1] == p[..i] + [p[i]];
        if o.Fail? {
          FirstThrowAt(p, answers, i);
          return;
        }
        i := i + 1;
      }
      assert p[..i] == p;
      FirstThrowAt(p, answers, |p|);
      o := Pass;
    }

    /** A step entered, then its calls in turn. */
    method EnterAndAsk(s: Step, q: seq<Action>) returns (o: Outcome<Failure>)
      requires forall i :: 0 <= i < |q| ==> q[i].Ask?
      modifies this`log, context`result
      ensures log == old(log) + Done([Enter(s)] + q, answers) && o == Ending([Enter(s)] + q, answers)
      ensures context.result == old(context.result).(step := StepOf(old(context.result).step, Done([Enter(s)] + q, answers)))
    {
      ghost var l0 := log;
      EnterStep(s);
      o := AskEach(q);
      EnterSteps(s, q, answers);
      Validate.SeqAssoc(l0, [Enter(s)], Done(q, answers));
    }

    /** `init`: the calendars found for the user are loaded, and the configuration asked for. */
    method Init(found: seq<Calendar>) returns (o: Outcome<Failure>)
      requires Workers.UserCalendarRows(found, store.calendars, context.userId)
      modifies this`log, context`calendars, context`connectedCalendars, context`writeableCalendars
      ensures context.user.None? ==>
                o == Fail(WorkerAssist.IdOfNull) && log == old(log) && context.calendars == old(context.calendars)
      ensures context.user.Some? ==>
                log == old(log) + Done(InitPlan(), answers) && o == Ending(InitPlan(), answers) &&
                context.calendars == found && context.connectedCalendars == ConnectedCalendars(found) &&
                context.writeableCalendars == WriteableCalendars(found)
    {
      if context.user.None? {
        return Fail(WorkerAssist.IdOfNull);
      }
      context.SetCalendars(found);
      o := AskEach(InitPlan());
    }

    /** `startSync`, `validation`, `eraseDeletedEvent` and `endSync` enter their step and call their collaborators. */
    method StartSync() returns (o: Outcome<Failure>)
      modifies this`log, context`result
      ensures log == old(log) + Done(StartSyncPlan(), answers) && o == Ending(StartSyncPlan(), answers)
      ensures context.result == old(context.result).(step := StepOf(old(context.result).step, Done(StartSyncPlan(), answers)))
    {
      o := EnterAndAsk(StartSyncStep, [Ask(StartSyncUserUpdate)]);
    }

    method Validation() returns (o: Outcome<Failure>)
      modifies this`log, context`result
      ensures log == old(log) + Done(ValidationPlan(), answers) && o == Ending(ValidationPlan(), answers)
      ensures context.result == old(context.result).(step := StepOf(old(context.result).step, Done(ValidationPlan(), answers)))
    {
      o := EnterAndAsk(ValidationStep, [Ask(ValidationAndRestore)]);
    }

    method EraseDeletedEvent() returns (o: Outcome<Failure>)
      modifies this`log, context`result
      ensures log == old(log) + Done(ErasePlan(), answers) && o == Ending(ErasePlan(), answers)
      ensures context.result == old(context.result).(step := StepOf(old(context.result).step, Done(ErasePlan(), answers)))
    {
      assert [Enter(EraseDeletedEventStep)] + [Ask(EraseDeletedNotionPage), Ask(EraseDeletedEventLink)] == ErasePlan();
      o := EnterAndAsk(EraseDeletedEventStep, [Ask(EraseDeletedNotionPage), Ask(EraseDeletedEventLink)]);
    }

    method EndSync() returns (o: Outcome<Failure>)
      modifies this`log, context`result
      ensures log == old(log) + Done(EndSyncPlan(), answers) && o == Ending(EndSyncPlan(), answers)
      ensures context.result == old(context.result).(step := StepOf(old(context.result).step, Done(EndSyncPlan(), answers)))
    {
      assert [Enter(EndSyncStep)] + [Ask(EndSyncUserUpdate), Ask(DeleteOldErrorLogs)] == EndSyncPlan();
      o := EnterAndAsk(EndSyncStep, [Ask(EndSyncUserUpdate), Ask(DeleteOldErrorLogs)]);
    }

    /** The calls of `syncEvents` after its listings: every event to `CUDPage`, then every page to `CUDEvent`. */
    method WriteAll() returns (o: Outcome<Failure>)
      modifies this`log
      ensures var p := PageWrites(answers.updatedEvents) + EventWrites(answers.updatedPages);
              log == old(log) + Done(p, answers) && o == Ending(p, answers)
    {
      ghost var l0 := log;
      var pw, ew := PageWrites(answers.updatedEvents), EventWrites(answers.updatedPages);
      o := AskEach(pw);
      Then(StartSyncStep, pw, ew, answers);
      if o.Fail? {
        return;
      }
      o := AskEach(ew);
      Validate.SeqAssoc(l0, pw, Done(ew, answers));
    }

    /** `syncEvents`, without any filtering. */
    method SyncEvents() returns (o: Outcome<Failure>)
      modifies this`log, context`result
      ensures log == old(log) + Done(SyncEventsPlan(answers), answers) && o == Ending(SyncEventsPlan(answers), answers)
      ensures context.result ==
                old(context.result).(step := StepOf(old(context.result).step, Done(SyncEventsPlan(answers), answers)))
    {
      ghost var l0, s0 := log, context.result.step;
      ghost var head := SyncEventsHead();
      ghost var rest := PageWrites(answers.updatedEvents) + EventWrites(answers.updatedPages);
      Validate.SeqAssoc(head, PageWrites(answers.updatedEvents), EventWrites(answers.updatedPages));
      Then(s0, head, rest, answers);
      assert [Enter(SyncEventsStep)] + [Ask(GetUpdatedPages), Ask(GetUpdatedEvents)] == head;
      o := EnterAndAsk(SyncEventsStep, [Ask(GetUpdatedPages), Ask(GetUpdatedEvents)]);
      if o.Fail? {
        return;
      }
      o := WriteAll();
      assert forall i :: 0 <= i < |rest| ==> rest[i].Ask?;
      CallsKeepStep(rest, answers);
      Validate.SeqAssoc(l0, head, Done(rest, answers));
    }

    /** `syncNewCalendars` (entering `step` = syncNewCalendar) and `initAccount` (`step` = initAccount). */
    method SyncPending(step: Step) returns (o: Outcome<Failure>)
      modifies this`log, context`result
      ensures var p := NewCalendarsPlan(step, context.calendars);
              log == old(log) + Done(p, answers) && o == Ending(p, answers) &&
              context.result == old(context.result).(step := StepOf(old(context.result).step, Done(p, answers)))
    {
      var newCalendars := Workers.PendingCalendars(context.calendars);
      o := EnterAndAsk(step, CalendarSyncs(newCalendars));
    }

    /** `eraseDeletedEvent`, then `syncEvents` if it got through. */
    method EraseAndSync() returns (o: Outcome<Failure>)
      modifies this`log, context`result
      ensures var p := ErasePlan() + SyncEventsPlan(answers);
              log == old(log) + Done(p, answers) && o == Ending(p, answers) &&
              context.result == old(context.result).(step := StepOf(old(context.result).step, Done(p, answers)))
    {
      ghost var l0, s0 := log, context.result.step;
      o := EraseDeletedEvent();
      Then(s0, ErasePlan(), SyncEventsPlan(answers), answers);
      if o.Fail? {
        return;
      }
      o := SyncEvents();
      Validate.SeqAssoc(l0, ErasePlan(), Done(SyncEventsPlan(answers), answers));
    }

    /** `eraseDeletedEvent`, `syncEvents` and `syncNewCalendars`, up to the first that throws. */
    method FullSync() returns (o: Outcome<Failure>)
      modifies this`log, context`result
      ensures var p := BranchPlan(true, context.calendars, answers);
              log == old(log) + Done(p, answers) && o == Ending(p, answers) &&
              context.result == old(context.result).(step := StepOf(old(context.result).step, Done(p, answers)))
    {
      ghost var l0, s0 := log, context.result.step;
      ghost var a, c := ErasePlan() + SyncEventsPlan(answers), NewCalendarsPlan(SyncNewCalendarStep, context.calendars);
      o := EraseAndSync();
      Then(s0, a, c, answers);
      if o.Fail? {
        return;
      }
      o := SyncPending(SyncNewCalendarStep);
      Validate.SeqAssoc(l0, a, Done(c, answers));
    }

    /** The branch on `lastCalendarSync`, then `endSync` if the branch got through. */
    method Continue() returns (o: Outcome<Failure>)
      requires context.user.Some?
      modifies this`log, context`result
      ensures var p := BranchPlan(context.user.value.lastCalendarSync.Some?, context.calendars, answers) + EndSyncPlan();
              log == old(log) + Done(p, answers) && o == Ending(p, answers) &&
              context.result == old(context.result).(step := StepOf(old(context.result).step, Done(p, answers)))
    {
      ghost var l0, s0 := log, context.result.step;
      ghost var b := BranchPlan(context.user.value.lastCalendarSync.Some?, context.calendars, answers);
      if context.user.value.lastCalendarSync.Some? {
        o := FullSync();
      } else {
        o := SyncPending(InitAccountStep);
      }
      Then(s0, b, EndSyncPlan(), answers);
      if o.Fail? {
        return;
      }
      o := EndSync();
      Validate.SeqAssoc(l0, b, Done(EndSyncPlan(), answers));
    }

    /** `init`, `startSync` and `validation`, up to the first that throws. */
    method Prepare(found: seq<Calendar>) returns (o: Outcome<Failure>)
      requires context.user.Some?
      requires Workers.UserCalendarRows(found, store.calendars, context.userId)
      modifies this`log, context`result, context`calendars, context`connectedCalendars, context`writeableCalendars
      ensures context.calendars == found
      ensures log == old(log) + Done(PreparePlan(), answers) && o == Ending(PreparePlan(), answers)
      ensures context.result == old(context.result).(step := StepOf(old(context.result).step, Done(PreparePlan(), answers)))
    {
      ghost var l0, s0 := log, context.result.step;
      ghost var a, b, c := InitPlan(), StartSyncPlan(), ValidationPlan();
      CallsKeepStep(a, answers);
      StepOfCalls(s0, a);
      o := Init(found);
      Then(s0, a, b, answers);
      Then(s0, a + b, c, answers);
      if o.Fail? {
        return;
      }
      o := StartSync();
      if o.Fail? {
        return;
      }
      o := Validation();
      Validate.SeqAssoc(l0, a, b);
      Validate.SeqAssoc(l0, a + b, Done(c, answers));
    }

    /**
     * `runSteps` on the calendars `found` for the user. A missing user
     * throws at the first log line; otherwise the steps run in the planned
     * order, with no shortcut for an empty window.
     */
    method RunSteps(found: seq<Calendar>) returns (o: Outcome<Failure>)
      requires Workers.UserCalendarRows(found, store.calendars, context.userId)
      modifies this`log, context`result, context`calendars, context`connectedCalendars, context`writeableCalendars
      ensures context.user.None? ==> o == Fail(WorkerAssist.IdOfNull) && log == old(log) && context.result == old(context.result)
      ensures context.user.Some? ==>
                var p := StepsPlan(context.user.value.lastCalendarSync.Some?, found, answers);
                log == old(log) + Done(p, answers) && o == Ending(p, answers) &&
                context.result == old(context.result).(step := StepOf(old(context.result).step, Done(p, answers)))
    {
      if context.user.None? {
        o := Init(found);
        return;
      }
      ghost var l0, s0 := log, context.result.step;
      ghost var a := PreparePlan();
      ghost var b := BranchPlan(context.user.value.lastCalendarSync.Some?, found, answers) + EndSyncPlan();
      o := Prepare(found);
      Then(s0, a, b, answers);
      if o.Fail? {
        return;
      }
      o := Continue();
      Validate.SeqAssoc(l0, a, Done(b, answers));
    }

    /**
     * `run`: the user row is read into the context as it is, found or not;
     * the steps run under `workerExceptionFilter` and the deadline (`timedOut`
     * says whether it passed first, `userWrite` how the database answers the
     * filter's write), and the report is returned with its summary line.
     * Without a user the filter itself throws reading the user's id.
     */
    method Run(found: seq<Calendar>, timedOut: bool, userWrite: Outcome<Failure>, elapsed: string)
      returns (r: Result<WorkerResult, Failure>, ghost caught: Outcome<Failure>)
      requires Workers.UserCalendarRows(found, store.calendars, context.userId)
      modifies this`log, context`result, context`user, context`calendars, context`connectedCalendars,
               context`writeableCalendars, store`users
      ensures context.userId !in old(store.users) ==>
                r == Err(WorkerAssist.IdOfNull) && log == old(log) && store.users == old(store.users)
      ensures context.userId in old(store.users) ==>
                var u := old(store.users)[context.userId];
                var p := StepsPlan(u.lastCalendarSync.Some?, found, answers);
                context.user == Some(u) && log == old(log) + Done(p, answers) &&
                caught == (if timedOut then Fail(TimeoutError) else Ending(p, answers)) &&
                (r.Ok? <==> caught.Pass? || userWrite.Pass?) && (r.Err? ==> r == Err(userWrite.error)) &&
                (caught.Pass? ==> store.users == old(store.users)) &&
                (caught.Fail? && userWrite.Pass? ==> store.users == UpdateRow(old(store.users), u.id, ExceptionFilter.Unlocked())) &&
                (r.Ok? ==> r.value.step == StepOf(old(context.result).step, Done(p, answers)))
      ensures context.userId in old(store.users) && !timedOut && answers.throws(InitConfig).Some? ==>
                caught == Fail(answers.throws(InitConfig).value) && log == old(log) + [Ask(InitConfig)] &&
                (r.Ok? ==> r.value.fail && r.value.step == old(context.result).step)
      ensures r.Ok? ==> context.user.Some? && r.value == context.result &&
                        r.value.simpleResponse == SimpleResponse(context.user.value.id, r.value, elapsed)
      ensures r.Ok? ==> (r.value.fail <==> caught.Fail? || old(context.result).fail)
      ensures r.Ok? && caught.Fail? && IsSyncError(caught.error) ==> r.value.failReason == Some(caught.error.code)
      ensures r.Ok? && (caught.Pass? || !IsSyncError(caught.error)) ==> r.value.failReason == old(context.result).failReason
    {
      context.user := if context.userId in store.users then Some(store.users[context.userId]) else None;
      var steps := RunSteps(found);
      var thrown := if timedOut then Fail(TimeoutError) else steps;
      caught := thrown;
      if context.user.Some? && answers.throws(InitConfig).Some? {
        InitConfigEndsRun(context.user.value.lastCalendarSync.Some?, found, answers);
      }
      if thrown.Fail? {
        if context.user.None? {
          return Err(WorkerAssist.IdOfNull), caught;
        }
        var filtered := ExceptionFilter.WorkerExceptionFilter(context, store, thrown, userWrite);
        if filtered.Fail? {
          return Err(filtered.error), caught;
        }
      }
      r := context.GetResult(elapsed);
    }
  }
}
