// The Notion half of a run: validating the property mapping, the calendar
// select options, the pages edited in the window with their links, and the
// page writes that follow an event read from Google Calendar.
module NotionAssist {
  import opened Wrappers
  import opened Entities
  import opened Errors
  import opened Requests
  import opened Tables
  import opened Stores
  import opened Context
  import opened Environment
  import opened Events
  import opened NotionEvents
  import opened Text
  import opened Validate
  import NotionApi
  import EventLinks
  import GoogleEvents
  import PropLookup
  import Seqs

  // ---- validationAndRestore ----

  /** The detail of the validation error: one `error: message` line per error, joined by newlines. */
  function ValidationDetail(errors: seq<ValidationError>): string
  {
    Join(ErrorLines(errors), "\n")
  }

  /** The detail reads back as the errors' lines when no error text spans lines. */
  lemma ValidationDetailLines(errors: seq<ValidationError>)
    requires |errors| >= 1
    requires forall k :: 0 <= k < |errors| ==> '\n' !in errors[k].error && '\n' !in errors[k].message
    ensures Split(ValidationDetail(errors), '\n') == ErrorLines(errors)
    ensures |Split(ValidationDetail(errors), '\n')| == |errors|
  {
    var lines := ErrorLines(errors);
    forall k | 0 <= k < |lines| ensures '\n' !in lines[k] {
      assert lines[k] == errors[k].error + ": " + errors[k].message;
    }
    SplitJoin(lines, '\n');
    assert ['\n'] == "\n";
  }

  /**
   * `validationAndRestore`: the validation runs once; any error makes it
   * throw the validation sync error carrying every error, otherwise it
   * succeeds. The user may change only in its property mapping.
   */
  method ValidationAndRestore(ctx: WorkContext, store: Store)
    returns (o: Outcome<Failure>, ghost errors: seq<ValidationError>, ghost checked: NotionProps)
    requires ctx.user.Some?
    modifies ctx`user, store`users, store`database, store`notionRequests
    ensures ctx.user.Some? && ctx.user.value == old(ctx.user.value).(notionProps := ctx.user.value.notionProps)
    ensures errors == ValidateUserPropsErrors(old(ctx.user.value.notionProps), old(ctx.user.value.isSyncAdditionalProps)) +
                      NotionPropErrors(Seqs.Keys(checked), checked, old(store.database),
                                       old(ctx.user.value.isSyncAdditionalProps))
    ensures |errors| == 0 ==> o == Pass
    ensures |errors| != 0 ==> o == Fail(SyncFailure(NotionValidationError, ValidationDetail(errors)))
    ensures old(store.database) <= store.database
    ensures MappingAfterRun(old(ctx.user.value.notionProps), old(ctx.user.value.isSyncAdditionalProps),
                            old(store.database), store.database, checked, ctx.user.value.notionProps,
                            old(store.users), store.users, ctx.user.value.id)
    ensures var p0, flag, db0 :=
              old(ctx.user.value.notionProps), old(ctx.user.value.isSyncAdditionalProps), old(store.database);
            ValidateUserPropsErrors(p0, flag) == [] && ValidateUserPropsRestores(p0, flag) == [] &&
            NotionPropErrors(Seqs.Keys(p0), p0, db0, flag) == [] &&
            NotionPropRestores(Seqs.Keys(p0), p0, db0, flag) == []
            ==> o == Pass && ctx.user == old(ctx.user) && store.users == old(store.users)
  {
    ghost var expected := ValidateUserPropsErrors(ctx.user.value.notionProps, ctx.user.value.isSyncAdditionalProps);
    ghost var add, db := ctx.user.value.isSyncAdditionalProps, store.database;
    var validation := new NotionValidation();
    var found := validation.Run(ctx, store);
    errors, checked := found, validation.checkedProps;
    assert errors == [] + expected + NotionPropErrors(Seqs.Keys(checked), checked, db, add);
    Validate.SeqAssoc([], expected, NotionPropErrors(Seqs.Keys(checked), checked, db, add));
    if |found| != 0 {
      return Fail(SyncFailure(NotionValidationError, ValidationDetail(found))), errors, checked;
    }
    return Pass, errors, checked;
  }

  // ---- getCalendarOptions / addCalendarProp ----

  /** A calendar's select option: its option id and its Google name. */
  function OptionOf(c: Calendar): CalendarOption
  {
    CalendarOption(c.notionPropertyId, c.googleCalendarName)
  }

  function OptionsOf(cs: seq<Calendar>): (r: seq<CalendarOption>)
    ensures |r| == |cs| && forall k :: 0 <= k < |cs| ==> r[k] == OptionOf(cs[k])
  {
    seq(|cs|, (k: int) requires 0 <= k < |cs| => OptionOf(cs[k]))
  }

  /**
   * `getCalendarOptions`: the calendars that have an option id, in their
   * order, each as its `{id, name}` option.
   */
  function CalendarOptions(cs: seq<Calendar>): (r: seq<CalendarOption>)
    ensures |r| <= |cs|
    ensures forall k :: 0 <= k < |r| ==> Truthy(r[k].id) && exists c :: c in cs && r[k] == OptionOf(c)
    ensures forall c :: c in cs && Truthy(c.notionPropertyId) ==> OptionOf(c) in r
  {
    var kept := Seqs.Filter(cs, (c: Calendar) => Truthy(c.notionPropertyId));
    assert forall k :: 0 <= k < |kept| ==> kept[k] in kept;
    assert forall c :: c in kept ==> OptionOf(c) in OptionsOf(kept) by {
      forall c | c in kept ensures OptionOf(c) in OptionsOf(kept) {
        var k :| 0 <= k < |kept| && kept[k] == c;
        assert OptionsOf(kept)[k] == OptionOf(c);
      }
    }
    OptionsOf(kept)
  }

  /** The options `addCalendarProp` sends: the existing ones and, without id, the new calendar's. */
  function SentOptions(cs: seq<Calendar>, calendar: Calendar): seq<CalendarOption>
  {
    CalendarOptions(cs) + [CalendarOption(None, calendar.googleCalendarName)]
  }

  /** `calendars.map(e => e.notionPropertyId)`. */
  function PropertyIds(cs: seq<Calendar>): (r: seq<Option<string>>)
    ensures |r| == |cs| && forall k :: 0 <= k < |cs| ==> r[k] == cs[k].notionPropertyId
  {
    seq(|cs|, (k: int) requires 0 <= k < |cs| => cs[k].notionPropertyId)
  }

  /** The schema property whose id is the calendar prop; an unmapped prop matches none. */
  function SchemaProperty(db: seq<DatabaseProperty>, propId: Option<string>): (r: Option<DatabaseProperty>)
    ensures r.Some? ==> r.value in db && propId == Some(r.value.id)
  {
    if propId.None? then None
    else
      match PropLookup.FirstDatabasePropWithId(db, propId.value)
      case None => None
      case Some(k) => Some(db[k])
  }

  /** The first option whose id is not among `used`. */
  function FirstUnused(options: seq<SelectOption>, used: seq<Option<string>>): (r: Option<SelectOption>)
    ensures r.Some? ==> r.value in options && Some(r.value.id) !in used
    ensures r.None? <==> forall k :: 0 <= k < |options| ==> Some(options[k].id) in used
  {
    if |options| == 0 then None
    else if Some(options[0].id) !in used then Some(options[0])
    else
      var rest := FirstUnused(options[1..], used);
      assert forall k :: 1 <= k < |options| ==> options[k] == options[1..][k - 1];
      rest
  }

  /** When every option but the last is used and the last is not, the last one is found. */
  lemma {:induction false} FirstUnusedIsLast(options: seq<SelectOption>, used: seq<Option<string>>)
    requires |options| >= 1
    requires forall k :: 0 <= k < |options| - 1 ==> Some(options[k].id) in used
    requires Some(options[|options| - 1].id) !in used
    ensures FirstUnused(options, used) == Some(options[|options| - 1])
  {
    if |options| > 1 {
      var rest := options[1..];
      assert forall k :: 0 <= k < |rest| - 1 ==> rest[k] == options[k + 1];
      FirstUnusedIsLast(rest, used);
    }
  }

  /**
   * The option `addCalendarProp` takes for the new calendar: in the schema's
   * calendar property, the first option whose id no calendar of the run
   * uses. Each missing step reads through `undefined`.
   */
  function NewOptionId(db: seq<DatabaseProperty>, propId: Option<string>, cs: seq<Calendar>): (r: Result<string, Failure>)
    ensures SchemaProperty(db, propId).None? ==> r == Err(TypeError("Cannot read properties of undefined (reading 'select')"))
    ensures SchemaProperty(db, propId).Some? && SchemaProperty(db, propId).value.propType != SelectType ==>
              r == Err(TypeError("Cannot read properties of undefined (reading 'options')"))
    ensures r.Ok? ==> forall c :: c in cs ==> c.notionPropertyId != Some(r.value)
    ensures r.Ok? ==> exists o :: o in SchemaProperty(db, propId).value.options && o.id == r.value
  {
    match SchemaProperty(db, propId)
    case None => Err(TypeError("Cannot read properties of undefined (reading 'select')"))
    case Some(p) =>
      if p.propType != SelectType then Err(TypeError("Cannot read properties of undefined (reading 'options')"))
      else
        match FirstUnused(p.options, PropertyIds(cs))
        case None => Err(TypeError("Cannot read properties of undefined (reading 'id')"))
        case Some(o) =>
          assert forall c :: c in cs ==> c.notionPropertyId in PropertyIds(cs) by {
            forall c | c in cs ensures c.notionPropertyId in PropertyIds(cs) {
              var k :| 0 <= k < |cs| && cs[k] == c;
              assert PropertyIds(cs)[k] == c.notionPropertyId;
            }
          }
          Ok(o.id)
  }

  /** The calendar row change `addCalendarProp` saves. */
  function WithOptionId(id: string): Calendar -> Calendar
  {
    (c: Calendar) => c.(notionPropertyId := Some(id))
  }

  /**
   * `addCalendarProp`: the existing options and a new one without id are
   * written to the calendar property, and the id of the option then found
   * is stored as the calendar's option id.
   */
  method AddCalendarProp(ctx: WorkContext, store: Store, calendar: Calendar) returns (o: Outcome<Failure>)
    requires ctx.user.Some?
    modifies store`notionRequests, store`database, store`calendars
    ensures var key := NotionApi.Key(ctx.user.value.notionProps, "calendar");
            var sent := SentOptions(ctx.calendars, calendar);
            store.notionRequests == old(store.notionRequests) + [NotionRequest.UpdateCalendarOptions(key, sent)] &&
            store.database == NotionApi.WithOptions(old(store.database), key,
                                                    NotionApi.AssignOptionIds(sent, store.remote.newOptionId))
    ensures var id := NewOptionId(store.database, Seqs.Get(ctx.user.value.notionProps, "calendar"), ctx.calendars);
            (id.Err? ==> o == Fail(id.error) && store.calendars == old(store.calendars)) &&
            (id.Ok? ==> o == Pass && store.calendars == UpdateRow(old(store.calendars), calendar.id, WithOptionId(id.value)))
  {
    var options := SentOptions(ctx.calendars, calendar);
    var db := NotionApi.UpdateCalendarOptions(ctx, store, options);
    var id := NewOptionId(db, Seqs.Get(ctx.user.value.notionProps, "calendar"), ctx.calendars);
    if id.Err? {
      return Fail(id.error);
    }
    store.calendars := UpdateRow(store.calendars, calendar.id, WithOptionId(id.value));
    return Pass;
  }

  /** Rewriting the options of the property with one id leaves the first property with that id where it was. */
  lemma SchemaPropertyWithOptions(db: seq<DatabaseProperty>, propId: string, options: seq<SelectOption>)
    requires SchemaProperty(db, Some(propId)).Some?
    ensures SchemaProperty(NotionApi.WithOptions(db, propId, options), Some(propId))
            == Some(SchemaProperty(db, Some(propId)).value.(options := options))
  {
    var db2 := NotionApi.WithOptions(db, propId, options);
    var i := PropLookup.FirstDatabasePropWithId(db, propId).value;
    assert forall k :: 0 <= k < |db| ==> db2[k].id == db[k].id;
    PropLookup.FirstDatabasePropAt(db2, propId, i);
  }

  /** Every option addCalendarProp resends carries the id of a calendar of the run. */
  lemma SentOptionsUsed(cs: seq<Calendar>, calendar: Calendar, newId: string -> string)
    ensures var opts := NotionApi.AssignOptionIds(SentOptions(cs, calendar), newId);
            |opts| >= 1 && opts[|opts| - 1].id == newId(calendar.googleCalendarName) &&
            forall k :: 0 <= k < |opts| - 1 ==> Some(opts[k].id) in PropertyIds(cs)
  {
    var sent := SentOptions(cs, calendar);
    var opts := NotionApi.AssignOptionIds(sent, newId);
    var existing := CalendarOptions(cs);
    forall k | 0 <= k < |opts| - 1 ensures Some(opts[k].id) in PropertyIds(cs) {
      assert sent[k] == existing[k];
      var c :| c in cs && existing[k] == OptionOf(c);
      var i :| 0 <= i < |cs| && cs[i] == c;
      assert PropertyIds(cs)[i] == Some(opts[k].id);
    }
  }

  /**
   * When the calendar property is a select property and the id Notion gives
   * the new option is not already a calendar's, that id is the one stored.
   */
  lemma AddedOptionIsChosen(db: seq<DatabaseProperty>, propId: string, cs: seq<Calendar>, calendar: Calendar,
                            newId: string -> string)
    requires SchemaProperty(db, Some(propId)).Some? && SchemaProperty(db, Some(propId)).value.propType == SelectType
    requires forall c :: c in cs ==> c.notionPropertyId != Some(newId(calendar.googleCalendarName))
    ensures NewOptionId(NotionApi.WithOptions(db, propId, NotionApi.AssignOptionIds(SentOptions(cs, calendar), newId)),
                        Some(propId), cs) == Ok(newId(calendar.googleCalendarName))
  {
    var opts := NotionApi.AssignOptionIds(SentOptions(cs, calendar), newId);
    SchemaPropertyWithOptions(db, propId, opts);
    SentOptionsUsed(cs, calendar, newId);
    var used := PropertyIds(cs);
    assert forall i :: 0 <= i < |cs| ==> cs[i] in cs;
    FirstUnusedIsLast(opts, used);
  }

  /** When that id is already a calendar's, no option is free and addCalendarProp throws. */
  lemma ReusedOptionIdThrows(db: seq<DatabaseProperty>, propId: string, cs: seq<Calendar>, calendar: Calendar,
                             newId: string -> string)
    requires SchemaProperty(db, Some(propId)).Some? && SchemaProperty(db, Some(propId)).value.propType == SelectType
    requires exists c :: c in cs && c.notionPropertyId == Some(newId(calendar.googleCalendarName))
    ensures NewOptionId(NotionApi.WithOptions(db, propId, NotionApi.AssignOptionIds(SentOptions(cs, calendar), newId)),
                        Some(propId), cs) == Err(TypeError("Cannot read properties of undefined (reading 'id')"))
  {
    var opts := NotionApi.AssignOptionIds(SentOptions(cs, calendar), newId);
    SchemaPropertyWithOptions(db, propId, opts);
    SentOptionsUsed(cs, calendar, newId);
    var used := PropertyIds(cs);
    PropertyIdOfSome(cs, newId(calendar.googleCalendarName));
    assert forall k :: 0 <= k < |opts| ==> Some(opts[k].id) in used;
  }

  /** An id some calendar is mapped to is among the calendars' property ids. */
  lemma PropertyIdOfSome(cs: seq<Calendar>, id: string)
    requires exists c :: c in cs && c.notionPropertyId == Some(id)
    ensures Some(id) in PropertyIds(cs)
  {
    var c :| c in cs && c.notionPropertyId == Some(id);
    var i :| 0 <= i < |cs| && cs[i] == c;
    assert PropertyIds(cs)[i] == Some(id);
  }

  // ---- getUpdatedPages ----

  /** Each page with the link found for its page id. */
  function WithLinks(pages: seq<NotionEventDto>, links: seq<Link>, userId: int): (r: seq<NotionEventDto>)
    ensures |r| == |pages|
    ensures forall k :: 0 <= k < |pages| ==>
              r[k] == pages[k].(base := pages[k].base.(eventLink :=
                        EventLinks.FindByNotionPageId(links, userId, pages[k].base.notionPageId)))
  {
    seq(|pages|, (k: int) requires 0 <= k < |pages| =>
      pages[k].(base := pages[k].base.(eventLink := EventLinks.FindByNotionPageId(links, userId, pages[k].base.notionPageId))))
  }

  /**
   * `getUpdatedPages`: the updated pages, each with its link; the number of
   * pages is reported as the Notion-to-Google count.
   */
  method GetUpdatedPages(ctx: WorkContext, store: Store) returns (r: Result<seq<NotionEventDto>, Failure>)
    requires ctx.user.Some? && ctx.config.Some?
    modifies ctx`result
    ensures var q := old(NotionApi.GetUpdatedPages(ctx, store.remote));
            (q.Err? ==> r == Err(q.error) && ctx.result == old(ctx.result)) &&
            (q.Ok? ==> r == Ok(WithLinks(q.value, store.links, ctx.user.value.id)) &&
                       ctx.result == old(ctx.result).(notion2GCalCount := |q.value|))
  {
    var q := NotionApi.GetUpdatedPages(ctx, store.remote);
    if q.Err? {
      return Err(q.error);
    }
    var pages := WithLinks(q.value, store.links, ctx.user.value.id);
    ctx.result := ctx.result.(notion2GCalCount := |q.value|);
    return Ok(pages);
  }

  /**
   * Records without a page id are all given the user's first link, whichever
   * page that link belongs to.
   */
  lemma AbsentPageIdsShareFirstLink(pages: seq<NotionEventDto>, links: seq<Link>, userId: int)
    requires forall k :: 0 <= k < |pages| ==> pages[k].base.notionPageId == None
    ensures forall k :: 0 <= k < |pages| ==>
              WithLinks(pages, links, userId)[k].base.eventLink == Seqs.Find(links, (l: Link) => l.userId == userId)
  {
    EventLinks.AbsentPageIdMatchesFirstLink(links, userId);
  }

  /** The updated pages carry no page id, so every one of them gets the user's first link. */
  lemma UpdatedPagesShareFirstLink(ctx: WorkContext, remote: Remote, links: seq<Link>)
    requires ctx.user.Some? && ctx.config.Some?
    requires NotionApi.GetUpdatedPages(ctx, remote).Ok?
    ensures var userId := ctx.user.value.id;
            var pages := WithLinks(NotionApi.GetUpdatedPages(ctx, remote).value, links, userId);
            forall k :: 0 <= k < |pages| ==> pages[k].base.eventLink == Seqs.Find(links, (l: Link) => l.userId == userId)
  {
    AbsentPageIdsShareFirstLink(NotionApi.GetUpdatedPages(ctx, remote).value, links, ctx.user.value.id);
  }

  // ---- the page writes ----

  /**
   * What a page write does: its outcome, the requests it sends to Notion,
   * and the link rows it saves, in order.
   */
  datatype PageWrite = PageWrite(outcome: Outcome<Failure>, sent: seq<NotionRequest>, saved: seq<Link>)

  /** The TypeError of the write-back `_createPage` calls on the Google assist, which has no such method. */
  const MissingWriteBack: Failure := TypeError("this.googleCalendarAssist.updateEventAfterNotionPageCreate is not a function")

  /**
   * `_createPage(event)`: the page is created, a link is made from the
   * event merged with the page read back, and for a calendar the user may
   * write to, the write-back to Google Calendar is called.
   */
  function CreatePlan(event: EventDto, lib: DateLib, props: NotionProps, remote: Remote,
                      userId: int, linkId: int, end: int): PageWrite
  {
    if event.IsDeletedEvent() then PageWrite(Pass, [], [])
    else
      match NotionEvents.FromEvent(event, lib)
      case Err(e) => PageWrite(Fail(e), [], [])
      case Ok(n) =>
        match NotionApi.PagePayloadOf(n, props)
        case Err(e) => PageWrite(Fail(e), [], [])
        case Ok(payload) =>
          CreatedPlan(event, FromNotionEvent(remote.createdPage(payload), n.base.calendar, props),
                      [NotionRequest.CreatePage(payload)], userId, linkId, end)
  }

  /** The rest of `_createPage` once the request `sent` has answered with the page `created`. */
  function CreatedPlan(event: EventDto, created: Result<NotionEventDto, Failure>, sent: seq<NotionRequest>,
                       userId: int, linkId: int, end: int): PageWrite
  {
    match created
    case Err(e) => PageWrite(Fail(e), sent, [])
    case Ok(c) =>
      match c.ToEvent()
      case Err(e) => PageWrite(Fail(e), sent, [])
      case Ok(back) =>
        var merged := event.Merge(back);
        if merged.base.calendar.None? then
          PageWrite(Fail(TypeError("Cannot read properties of undefined (reading 'googleCalendarId')")), sent, [])
        else
          var link := EventLinks.LinkFor(linkId, userId, merged, end);
          PageWrite(if event.IsReadOnly() then Pass else Fail(MissingWriteBack), sent, [link])
  }

  /** `_createPage`, on the store. */
  method CreateEventPage(ctx: WorkContext, store: Store, lib: DateLib, event: EventDto) returns (o: Outcome<Failure>)
    requires ctx.user.Some?
    modifies store`notionRequests, store`links, store`nextLinkId
    ensures var w := CreatePlan(event, lib, ctx.user.value.notionProps, store.remote, ctx.user.value.id,
                                old(store.nextLinkId), ctx.periodEnd);
            o == w.outcome && store.notionRequests == old(store.notionRequests) + w.sent &&
            store.links == SaveAll(old(store.links), w.saved) && store.nextLinkId == old(store.nextLinkId) + |w.saved|
  {
    if event.IsDeletedEvent() {
      return Pass;
    }
    var n := NotionEvents.FromEvent(event, lib);
    if n.Err? {
      return Fail(n.error);
    }
    var payload := NotionApi.PagePayloadOf(n.value, ctx.user.value.notionProps);
    var created := NotionApi.CreatePage(ctx, store, n.value);
    if payload.Err? {
      return Fail(created.error);
    }
    o := LinkCreatedPage(ctx, store, event, created, [NotionRequest.CreatePage(payload.value)]);
  }

  /** The part of `_createPage` after the page is created: the read-back, the link, the write-back. */
  method LinkCreatedPage(ctx: WorkContext, store: Store, event: EventDto, created: Result<NotionEventDto, Failure>,
                         ghost sent: seq<NotionRequest>)
    returns (o: Outcome<Failure>)
    requires ctx.user.Some?
    modifies store`links, store`nextLinkId
    ensures var w := CreatedPlan(event, created, sent, ctx.user.value.id, old(store.nextLinkId), ctx.periodEnd);
            o == w.outcome && store.links == SaveAll(old(store.links), w.saved) &&
            store.nextLinkId == old(store.nextLinkId) + |w.saved|
  {
    if created.Err? {
      return Fail(created.error);
    }
    var back := created.value.ToEvent();
    if back.Err? {
      return Fail(back.error);
    }
    var link := EventLinks.Create(ctx, store, event.Merge(back.value));
    if link.Err? {
      return Fail(link.error);
    }
    if event.IsReadOnly() {
      return Pass;
    }
    return Fail(MissingWriteBack);
  }

  /** A cancelled event creates nothing. */
  lemma CreateSkipsCancelled(event: EventDto, lib: DateLib, props: NotionProps, remote: Remote,
                             userId: int, linkId: int, end: int)
    requires event.IsDeletedEvent()
    ensures CreatePlan(event, lib, props, remote, userId, linkId, end) == PageWrite(Pass, [], [])
  {
  }

  /**
   * Otherwise at most one page is created, and a link only after it; the
   * write succeeds only for a reader calendar, since for any other calendar
   * the missing write-back throws once page and link exist.
   */
  lemma CreateWritesBackOnlyForWritable(event: EventDto, lib: DateLib, props: NotionProps, remote: Remote,
                                        userId: int, linkId: int, end: int)
    requires !event.IsDeletedEvent()
    ensures var w := CreatePlan(event, lib, props, remote, userId, linkId, end);
            |w.sent| <= 1 && |w.saved| <= 1 && (|w.saved| == 1 ==> |w.sent| == 1) &&
            (w.outcome.Pass? <==> |w.saved| == 1 && event.IsReadOnly()) &&
            (|w.saved| == 1 && !event.IsReadOnly() ==> w.outcome == Fail(MissingWriteBack))
  {
  }

  /** The link `_createPage` saves once a page read back under the event's calendar has answered. */
  lemma CreatedLinkFields(event: EventDto, created: Result<NotionEventDto, Failure>, sent: seq<NotionRequest>,
                          userId: int, linkId: int, end: int)
    requires created.Ok? ==> created.value.base.calendar == event.base.calendar &&
                             created.value.base.googleCalendarEventId == None
    ensures var w := CreatedPlan(event, created, sent, userId, linkId, end);
            forall l :: l in w.saved ==>
              l.id == linkId && l.userId == userId && l.notionPageId == None &&
              l.googleCalendarEventId == event.base.googleCalendarEventId &&
              event.base.calendar.Some? && l.calendar == event.base.calendar &&
              l.googleCalendarCalendarId == Some(event.base.calendar.value.googleCalendarId) &&
              l.lastNotionUpdate == Some(end) && l.lastGoogleCalendarUpdate == Some(end) &&
              l.status == Synced && !l.willRemove
  {
    if created.Ok? && created.value.ToEvent().Ok? {
      MergeDropsLinkFields(event, created.value.ToEvent().value);
    }
  }

  /**
   * The link a created page gets records the event's Google ids and no
   * page id: the merged record has lost it.
   */
  lemma CreatedLinkHasNoPage(event: EventDto, lib: DateLib, props: NotionProps, remote: Remote,
                             userId: int, linkId: int, end: int)
    ensures var w := CreatePlan(event, lib, props, remote, userId, linkId, end);
            forall l :: l in w.saved ==>
              l.id == linkId && l.userId == userId && l.notionPageId == None &&
              l.googleCalendarEventId == event.base.googleCalendarEventId &&
              event.base.calendar.Some? && l.calendar == event.base.calendar &&
              l.googleCalendarCalendarId == Some(event.base.calendar.value.googleCalendarId) &&
              l.lastNotionUpdate == Some(end) && l.lastGoogleCalendarUpdate == Some(end) &&
              l.status == Synced && !l.willRemove
  {
    if !event.IsDeletedEvent() && NotionEvents.FromEvent(event, lib).Ok? {
      var n := NotionEvents.FromEvent(event, lib).value;
      if NotionApi.PagePayloadOf(n, props).Ok? {
        var payload := NotionApi.PagePayloadOf(n, props).value;
        CreatedLinkFields(event, FromNotionEvent(remote.createdPage(payload), n.base.calendar, props),
                          [NotionRequest.CreatePage(payload)], userId, linkId, end);
      }
    }
  }

  /** The event with the ids of its link, as `_updatePage` first rewrites it. */
  function WithLinkIds(event: EventDto): EventDto
    requires event.base.eventLink.Some?
  {
    event.(base := event.base.(googleCalendarEventId := event.base.eventLink.value.googleCalendarEventId,
                               notionPageId := event.base.eventLink.value.notionPageId))
  }

  /**
   * `_updatePage(event)`: a cancelled event archives the linked page.
   * Otherwise a calendar change is saved to the link first; then the page
   * is rewritten, and only then the link's Notion timestamp refreshed. The
   * link object is changed in place, so the refresh saves the new calendar too.
   */
  function UpdatePlan(event: EventDto, lib: DateLib, props: NotionProps, remote: Remote, end: int): PageWrite
  {
    if event.base.eventLink.None? then
      PageWrite(Fail(TypeError("Cannot read properties of undefined (reading 'googleCalendarEventId')")), [], [])
    else
      var link := event.base.eventLink.value;
      var e := WithLinkIds(event);
      if e.IsDeletedEvent() then
        PageWrite(NotionApi.DeletePageOutcome(remote.archiveResult(link.notionPageId)), [ArchivePage(link.notionPageId)], [])
      else
        match e.IsDifferentCalendarId()
        case Err(err) => PageWrite(Fail(err), [], [])
        case Ok(moved) =>
          var current := if moved then EventLinks.WithCalendar(link, e.base.calendar.value) else link;
          var moves := if moved then [current] else [];
          match NotionEvents.FromEvent(e, lib)
          case Err(err) => PageWrite(Fail(err), [], moves)
          case Ok(n) =>
            match NotionApi.PagePayloadOf(n, props)
            case Err(err) => PageWrite(Fail(err), [], moves)
            case Ok(payload) =>
              var sent := [NotionRequest.UpdatePage(n.base.notionPageId, payload)];
              match FromNotionEvent(remote.updatedPage(n.base.notionPageId, payload), n.base.calendar, props)
              case Err(err) => PageWrite(Fail(err), sent, moves)
              case Ok(_) => PageWrite(Pass, sent, moves + [current.(lastNotionUpdate := Some(end))])
  }

  /** `_updatePage`, on the store. */
  method UpdateEventPage(ctx: WorkContext, store: Store, lib: DateLib, event: EventDto) returns (o: Outcome<Failure>)
    requires ctx.user.Some?
    modifies store`notionRequests, store`links
    ensures var w := UpdatePlan(event, lib, ctx.user.value.notionProps, store.remote, ctx.periodEnd);
            o == w.outcome && store.notionRequests == old(store.notionRequests) + w.sent &&
            store.links == SaveAll(old(store.links), w.saved)
  {
    if event.base.eventLink.None? {
      return Fail(TypeError("Cannot read properties of undefined (reading 'googleCalendarEventId')"));
    }
    var link := event.base.eventLink.value;
    var e := WithLinkIds(event);
    if e.IsDeletedEvent() {
      o := NotionApi.DeletePage(store, e.base.notionPageId);
      return;
    }
    var moved := e.IsDifferentCalendarId();
    if moved.Err? {
      return Fail(moved.error);
    }
    ghost var links0 := store.links;
    if moved.value {
      link := EventLinks.UpdateCalendar(store, link, e.base.calendar.value);
    }
    ghost var moves := if moved.value then [link] else [];
    assert store.links == SaveAll(links0, moves);
    var n := NotionEvents.FromEvent(e, lib);
    if n.Err? {
      return Fail(n.error);
    }
    var updated := NotionApi.UpdatePage(ctx, store, n.value);
    if updated.Err? {
      return Fail(updated.error);
    }
    var refreshed := EventLinks.UpdateLastNotionUpdate(ctx, store, link);
    SaveAllAppend(links0, moves, refreshed);
    return Pass;
  }

  lemma {:induction false} SaveAllAppend(links: seq<Link>, saved: seq<Link>, l: Link)
    ensures SaveAll(links, saved + [l]) == SaveLink(SaveAll(links, saved), l)
    decreases |saved|
  {
    if |saved| == 0 {
      assert saved + [l] == [l];
    } else {
      assert (saved + [l])[1..] == saved[1..] + [l];
      SaveAllAppend(SaveLink(links, saved[0]), saved[1..], l);
    }
  }

  /** A cancelled linked event only archives its page: no page update and no link write. */
  lemma UpdateArchivesCancelled(event: EventDto, lib: DateLib, props: NotionProps, remote: Remote, end: int)
    requires event.base.eventLink.Some? && event.IsDeletedEvent()
    ensures var pageId := event.base.eventLink.value.notionPageId;
            UpdatePlan(event, lib, props, remote, end) ==
              PageWrite(NotionApi.DeletePageOutcome(remote.archiveResult(pageId)), [ArchivePage(pageId)], [])
  {
  }

  /**
   * For a live linked event the calendar change, when there is one, is the
   * first row saved, whatever happens next; the timestamp is refreshed
   * exactly when the page update succeeds, and the update is addressed to
   * an absent page id.
   */
  lemma UpdateMovesThenRefreshes(event: EventDto, lib: DateLib, props: NotionProps, remote: Remote, end: int)
    requires event.base.eventLink.Some? && !event.IsDeletedEvent() && event.base.calendar.Some?
    ensures var w := UpdatePlan(event, lib, props, remote, end);
            var link := event.base.eventLink.value;
            var moved := link.googleCalendarCalendarId != Some(event.base.calendar.value.googleCalendarId);
            var current := if moved then EventLinks.WithCalendar(link, event.base.calendar.value) else link;
            (moved ==> |w.saved| >= 1 && w.saved[0] == current) &&
            (w.outcome.Pass? ==> w.saved == (if moved then [current] else []) + [current.(lastNotionUpdate := Some(end))]) &&
            (w.outcome.Fail? ==> w.saved == (if moved then [current] else [])) &&
            (forall r :: r in w.sent ==> r.UpdatePage? && r.pageId == None)
  {
  }

  /** A live event without calendar fails before anything is written. */
  lemma UpdateNeedsCalendar(event: EventDto, lib: DateLib, props: NotionProps, remote: Remote, end: int)
    requires event.base.eventLink.Some? && !event.IsDeletedEvent() && event.base.calendar.None?
    ensures UpdatePlan(event, lib, props, remote, end) ==
              PageWrite(Fail(TypeError("Cannot read properties of undefined (reading 'googleCalendarId')")), [], [])
  {
  }

  /**
   * `CUDPage(googleCalendarEvent)`: an event read from Google carries no
   * link, so it is always new and a page is always created.
   */
  method CUDPage(ctx: WorkContext, store: Store, lib: DateLib, g: GoogleEvents.GoogleEventDto) returns (o: Outcome<Failure>)
    requires ctx.user.Some?
    modifies store`notionRequests, store`links, store`nextLinkId
    ensures g.ToEvent().IsNewEvent()
    ensures var w := CreatePlan(g.ToEvent(), lib, ctx.user.value.notionProps, store.remote, ctx.user.value.id,
                                old(store.nextLinkId), ctx.periodEnd);
            o == w.outcome && store.notionRequests == old(store.notionRequests) + w.sent &&
            store.links == SaveAll(old(store.links), w.saved) && store.nextLinkId == old(store.nextLinkId) + |w.saved|
  {
    var event := g.ToEvent();
    if event.IsNewEvent() {
      o := CreateEventPage(ctx, store, lib, event);
    } else {
      assert false;
    }
  }
}
