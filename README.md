# Calendar-to-Notion sync worker, modelled in Dafny

The sync bot keeps a user's Google Calendar calendars and one Notion database in step. A *worker*
runs once per user and sync window. The window runs from the user's last sync to the start of the
current minute. As the code lays it out, a run of the worker:

- loads the user's calendars;
- marks the user as working;
- validates the Notion database against the property ids the user mapped, and restores what it can;
- erases pages and events whose partner was deleted;
- reads the pages and events edited in the window;
- keeps the newer side of each linked pair and writes it to the other side;
- connects calendars that are still pending;
- records the end of the sync.

In this revision of `Worker.ts`, however, no run gets past the first step. `init`
loads the calendars and then fails. Building the Google Calendar assist reads the user's tokens, which throws
GOOGLE_CALLBACK_URL_NOT_FOUND when the user has no callback URL. Otherwise wiring the assists calls
`dependencyInjection` on the Google Calendar assist, whose class does not define it, and that throws a
TypeError. The exception filter then reports the run failed at step `init` and releases the user's lock. The
steps after `init` are modelled as written (`Worker.AfterInit`), but no run reaches them.

Each page–event pair is remembered in an *event link* row. Errors from either service go through
rule tables that turn a status code into a sync error, a rewind of the last-sync time, or silence.
An exception filter records the failure in the worker's report and releases the user's lock.

The model has these parts:

- **Event records.** Datatypes for the neutral `Event` record, its Notion and Google Calendar forms,
  and the older record family. Each conversion is a function whose contract says what it keeps,
  drops or translates. Lemmas state the round trips and the lossy cases.
- **Property lookups and validation.** The property lookups, and the validation of the user's
  mapped properties against the database schema, including the restore of missing properties.
- **Remote services and tables.** The API wrappers of both services are functions and methods over a
  `Store`. The store holds the database tables (users, calendars, event links, error logs) and the
  database schema. It also holds logs of the write requests sent to Notion and Google. Remote
  answers are fields of a `Remote` value.
- **Assists and workers.** The four assists (event links, Notion, Google Calendar, worker
  bookkeeping) are methods that change the store. The work context, the worker of `Worker.ts` and the
  older worker of `index.ts` are classes whose methods update their fields. Each is specified by a
  plan function: the steps entered and the calls made, up to the first that throws.
- **Error filters.** Both rule tables, the Google if-chain that precedes its table, and the worker's
  exception filter.

Time is an integer number of milliseconds. The date library (ISO formatting, day formatting, UTC
normalisation) is a value of functions `DateLib` that the conversions take as a parameter. The
predicates `EventDto.IsNewEvent`, `IsDeletedEvent` and `IsReadOnly` carry no contract of their
own. They are used by the members that branch on them (`ConstructedIsNew`, `CUDPage`, `CUDEvent`,
the erase lemmas).

## Model

| member | source | states |
|---|---|---|
| Clock.TruncateToMinute | src/module/worker/context/work.context.ts:55-58 | The window ends at the start of the minute that holds the run's start: a whole number of minutes, at most the start and less than a minute before it. |
| Clock.TruncateToMinuteMonotone | src/module/worker/context/work.context.ts:55-58 | A later start never gives an earlier window end. |
| Clock.ZeroSeconds | src/module/worker/Worker.ts:186-203 | Zeroing the seconds of an update time keeps its minute and its milliseconds. |
| Clock.ZeroSecondsNotMonotone | src/module/worker/Worker.ts:186-203 | The comparison in the sync filter is not monotone: 10.5 s past a minute compares later than 11.0 s past it. |
| Clock.ZeroSecondsSameMinute | src/module/worker/Worker.ts:186-203 | Two instants in one minute with the same milliseconds compare equal after the seconds are zeroed. |
| Entities.PropertyNames | src/module/worker/assist/notionAssist/validate.ts:79-83 | The keys of a database's property object are exactly the names of its properties. |
| Entities.PropertyNamed | src/module/worker/assist/notionAssist/validate.ts:79-83 | Indexing the property object by name finds a property exactly when one has that name, and it has that name. |
| Errors.NotionApiFailure | src/module/worker/assist/notionAssist/apiErrorFilterRule.ts:21-28 | A failure raised by a Notion rule callback is a sync error carrying the rule's Notion code. |
| Errors.GoogleApiFailure | src/module/worker/assist/googleCalendarAssist/apiErrorFilter.ts:23-28 | A failure raised by the Google filter is a sync error carrying its Google code. |
| ProtoEvents.NewProto | src/module/event/ProtoEvent/ProtoEvent.ts:29-39 | The constructor keeps source, ids, calendar and original payloads; the page id is read from `notionEventId`; link and update time are never stored. |
| ProtoEvents.ConstructorIgnoresKeys | src/module/event/ProtoEvent/ProtoEvent.ts:29-39 | Whatever is passed under `notionPageId`, `eventLink` or `updatedAt`, the constructed record is the same. |
| ProtoEvents.PageIdKeyDropped | src/module/event/ProtoEvent/ProtoEvent.ts:35 | Props carrying the page id under `notionPageId`, as every newer caller builds them, give a record with no page id. |
| Events.EventDto.MergeProps | src/module/event/Event/Event.dto.ts:40-67 | Per field, `merge` takes the argument's value when it is truthy and the receiver's otherwise; the date always comes from the argument; the page id is handed over under a key the constructor does not read. |
| Events.EventDto.OwnProps | src/module/event/Event/Event.dto.ts:26-34 | A record's own field values, as constructor props, keep its page id, title and date. |
| Events.EventDto.IsDifferentCalendarId | src/module/event/Event/Event.dto.ts:69-74 | Throws exactly when the link or the calendar is missing; otherwise true exactly when the link's calendar id differs from the calendar's Google id. |
| Events.NewEvent | src/module/event/Event/Event.dto.ts:26-34 | The constructor stores title, status, texts, date and Google link as given, over a ProtoEvent built from the same props. |
| Events.MergeSelfProps | src/module/event/Event/Event.dto.ts:40-67 | Merging a record with itself hands the constructor exactly its own field values. |
| Events.MergeSelf | src/module/event/Event/Event.dto.ts:40-67 | Merging a record with itself returns it, minus its page id, link and update time. |
| Events.MergeDropsLinkFields | src/module/event/Event/Event.dto.ts:40-67 | No merged record carries a page id, a link or an update time. |
| Events.ConstructedIsNew | src/module/event/Event/Event.dto.ts:76-82 | Every record the constructor builds is new by `isNewEvent`: it has no link. |
| EventLinks.FindByNotionPageId | src/module/worker/assist/eventLinkAssist/index.ts:21-29 | Returns a link of the user with that page id, or nothing exactly when no link of the user matches; an absent page id matches every link of the user. |
| EventLinks.AbsentPageIdMatchesFirstLink | src/module/worker/assist/eventLinkAssist/index.ts:21-29 | A lookup by an undefined page id returns the user's first link, whatever its page. |
| EventLinks.FindByGCalEvent | src/module/worker/assist/eventLinkAssist/index.ts:31-40 | Returns a link of the user with that event and calendar id, or nothing exactly when none matches. |
| EventLinks.FindDeletedEventLinks | src/module/worker/assist/eventLinkAssist/index.ts:42-50 | Lists exactly the user's links marked for removal. |
| EventLinks.DeleteEventLink | src/module/worker/assist/eventLinkAssist/index.ts:52-57 | Removes the rows with the link's id that belong to the current user, and no others. |
| EventLinks.UpdateCalendar | src/module/worker/assist/eventLinkAssist/index.ts:59-66 | Saves the link with its calendar and calendar id changed together. |
| EventLinks.UpdatedCalendarAgrees | src/module/worker/assist/eventLinkAssist/index.ts:59-66 | After the update, an event on that calendar carrying the saved link no longer reports a different calendar. |
| EventLinks.UpdateLastNotionUpdate | src/module/worker/assist/eventLinkAssist/index.ts:68-71 | Saves the link with only its Notion timestamp changed, to the end of the window. |
| EventLinks.UpdateLastGCalUpdate | src/module/worker/assist/eventLinkAssist/index.ts:73-76 | Saves the link with only its Google timestamp changed, to the end of the window. |
| EventLinks.Create | src/module/worker/assist/eventLinkAssist/index.ts:78-92 | An event without a calendar throws and nothing is saved. Otherwise a new synced link with the next id is saved, stamped with the window end on both sides. |
| GoogleEvents.GoogleEventDto.ToEvent | src/module/event/GoogleCalendarEvent/GoogleCalendarEvent.dto.ts:90-109 | The neutral record takes the summary as title and keeps ids, calendar, status, texts, date and link; page id, Notion page, link row and update time are absent. |
| GoogleEvents.NewGoogleEvent | src/module/event/GoogleCalendarEvent/GoogleCalendarEvent.dto.ts:30-37 | The constructor stores every field except the event's Google link. |
| GoogleEvents.FromEvent | src/module/event/GoogleCalendarEvent/GoogleCalendarEvent.dto.ts:39-59 | The title becomes the summary; ids, calendar, status, texts and date are kept; the page id is lost. |
| GoogleEvents.FromGoogleCalendar | src/module/event/GoogleCalendarEvent/GoogleCalendarEvent.dto.ts:61-88 | A Google event gives its id, start and end, status and texts, with the calendar passed in and itself as the original. |
| GoogleEvents.EventRoundTrip | src/module/event/GoogleCalendarEvent/GoogleCalendarEvent.dto.ts:39-109 | Through the Google record and back, a neutral record keeps everything except its page id, Notion page, link row, update time and Google link. |
| GoogleEvents.GoogleLinkDropped | src/module/event/GoogleCalendarEvent/GoogleCalendarEvent.dto.ts:30-37 | A Google event read into the neutral record keeps its id and dates but never its `htmlLink`. |
| LegacyEvents.LegacyEvent.Merge | src/dto/Event/Event.dto.ts:71-90 | The argument's ids, calendar, texts, status and date overwrite the receiver's, present or not; the receiver keeps its source, link and original payloads. |
| LegacyEvents.NewLegacyEvent | src/dto/Event/Event.dto.ts:31-64 | The older constructor copies every field verbatim. |
| LegacyEvents.MergeSelf | src/dto/Event/Event.dto.ts:71-90 | Merging an older record with itself gives it back unchanged. |
| LegacyEvents.MergeLastWins | src/dto/Event/Event.dto.ts:71-90 | A second merge replaces everything the first one took. |
| LegacyEvents.MergeErasesAbsent | src/dto/Event/Event.dto.ts:74-84 | An absent title or location in the argument erases the receiver's. |
| LegacyGoogleEvents.NewLegacyGoogleEvent | src/dto/GoogleCalendarEvent/GoogleCalendarEvent.dto.ts:31-61 | The calendar is never assigned and the link never copied, so both stay undefined; every other field is stored. |
| LegacyGoogleEvents.FromEvent | src/dto/GoogleCalendarEvent/GoogleCalendarEvent.dto.ts:66-85 | The title becomes the summary; ids, status, date, location and description are kept, with no calendar, no link and no original. |
| LegacyGoogleEvents.FromGoogleCalendarEvent | src/dto/GoogleCalendarEvent/GoogleCalendarEvent.dto.ts:90-117 | A Google event gives its id, start and end, summary, status, location and description, and itself as original, but no calendar and no link. |
| LegacyGoogleEvents.CalendarForgotten | src/dto/GoogleCalendarEvent/GoogleCalendarEvent.dto.ts:90-117 | Whatever calendar the caller passes, the record built from a Google event is the same. |
| LegacyNotionEvents.LegacyNotionEventDto.ToEvent | src/dto/NotionEvent/NotionEvent.dto.ts:203-222 | Fails exactly when the date is null; otherwise a true status reads as confirmed and false as cancelled, the date is translated, and the ids, calendar, title, texts, link and Notion original are copied. |
| LegacyNotionEvents.GetPropByName | src/dto/NotionEvent/NotionEvent.dto.ts:9-24 | A property found by name has that name and the requested type; an undefined name looks up the key "undefined"; a page without the name fails reading through undefined. |
| LegacyNotionEvents.ConvertDateToEvent | src/dto/NotionEvent/NotionEvent.dto.ts:133-161 | A 10-character bound is a day, anything else a moment; an empty or missing end stays empty. |
| LegacyNotionEvents.ConvertDateFromEvent | src/dto/NotionEvent/NotionEvent.dto.ts:163-201 | Succeeds exactly when both bounds are days or both are moments, otherwise "Invalid date". Moments pass unchanged. A kept all-day end is the library's ISO day of the end. The end is dropped exactly when it equals the start. |
| LegacyNotionEvents.FromEvent | src/dto/NotionEvent/NotionEvent.dto.ts:76-94 | Succeeds exactly when the date translates, to the translated date; the status holds whether the event is confirmed; the ids, calendar, title, location, description and link are copied from the event; the source is fromEvent and there is no Notion data. |
| LegacyNotionEvents.TextByName | src/dto/NotionEvent/NotionEvent.dto.ts:109-123 | A text field reads exactly when its property is found by name with the right type, and is then the plain text of its rich-text runs; otherwise the lookup's error. |
| LegacyNotionEvents.CheckboxByName | src/dto/NotionEvent/NotionEvent.dto.ts:113 | The delete field reads exactly when found, and is the checkbox's value. |
| LegacyNotionEvents.DateByName | src/dto/NotionEvent/NotionEvent.dto.ts:124 | The date field reads exactly when found as a date property, and is then that property's date (possibly null); otherwise the lookup's error. |
| LegacyNotionEvents.UrlByName | src/dto/NotionEvent/NotionEvent.dto.ts:125-126 | The link field reads exactly when found as a url property, and is then that property's url (possibly null); otherwise the lookup's error. |
| LegacyNotionEvents.FromNotionEvent | src/dto/NotionEvent/NotionEvent.dto.ts:96-131 | Succeeds exactly when all six mapped properties are found with their types, the optional texts included. Title, location and description are the texts read, date and link the values read, the status is the delete checkbox; the page id, calendar and page are kept and the two event ids are left empty. |
| LegacyNotionEvents.DeleteBoxInverted | src/dto/NotionEvent/NotionEvent.dto.ts:113 | A page whose delete box is checked is passed on as a confirmed event, an unchecked one as cancelled. |
| LegacyNotionEvents.StatusRoundTrip | src/dto/NotionEvent/NotionEvent.dto.ts:85 | Through the older Notion record, confirmed stays confirmed and every other status becomes cancelled. |
| LegacyNotionEvents.SingleDayRejected | src/dto/NotionEvent/NotionEvent.dto.ts:149-189 | A Notion date without an end has no end bound, so the reverse translation rejects it. |
| LegacyNotionEvents.TimedRangeRoundTrip | src/dto/NotionEvent/NotionEvent.dto.ts:133-201 | A timed range with distinct bounds passes through unchanged in both directions. |
| NotionEvents.NotionEventDto.ToEvent | src/module/event/NotionEvent/NotionEvent.dto.ts:127-146 | Fails exactly when the date is null. Otherwise the deletion flag becomes cancelled or confirmed, the date is translated, and the source, ids, calendar, texts, Google link and Notion original are kept, with no page id. |
| NotionEvents.Classify | src/module/event/NotionEvent/NotionEvent.dto.ts:154-173 | A bound is a day exactly when its ISO string has 10 characters. |
| NotionEvents.ConvertDateToEvent | src/module/event/NotionEvent/NotionEvent.dto.ts:148-187 | The start is classified, and an empty or missing end repeats the start. |
| NotionEvents.ConvertDateFromEvent | src/module/event/NotionEvent/NotionEvent.dto.ts:189-230 | Succeeds exactly when both bounds are of one kind, otherwise "Invalid date". Moments are normalised to UTC and day ends reformatted. The end is dropped exactly when it equals the start as given. |
| NotionEvents.NewNotionEvent | src/module/event/NotionEvent/NotionEvent.dto.ts:52-60 | The constructor stores title, deletion flag, location, description, date and Google link over a ProtoEvent built from the same props. |
| NotionEvents.FromEvent | src/module/event/NotionEvent/NotionEvent.dto.ts:62-83 | Succeeds exactly when the date translates, and is deleted exactly when the event is cancelled. Source, ids, calendar, texts, Google link and both originals are passed on; the page id, link row and update time are not. |
| NotionEvents.TitleText | src/module/event/NotionEvent/NotionEvent.dto.ts:98-101 | The title reads exactly when the mapped property has title type, as its pieces of plain text joined in order. |
| NotionEvents.RichText | src/module/event/NotionEvent/NotionEvent.dto.ts:104-117 | An unmapped optional text reads as ''; a mapped one reads exactly when its property has rich-text type. |
| NotionEvents.Checkbox | src/module/event/NotionEvent/NotionEvent.dto.ts:102-103 | The deletion flag reads exactly when the mapped property is a checkbox, and is its value. |
| NotionEvents.DateField | src/module/event/NotionEvent/NotionEvent.dto.ts:118 | The date reads exactly when the mapped property is a date property, null for an empty one. |
| NotionEvents.UrlField | src/module/event/NotionEvent/NotionEvent.dto.ts:119-120 | The link reads exactly when the mapped property is a url property. |
| NotionEvents.FromNotionEvent | src/module/event/NotionEvent/NotionEvent.dto.ts:85-125 | Succeeds exactly when every mapped field reads, and the title's error comes first. The record has the page as original and the given calendar, but no page id. |
| NotionEvents.UnmappedTextIsEmpty | src/module/event/NotionEvent/NotionEvent.dto.ts:104-117 | Location and description the user has not mapped read as ''. |
| NotionEvents.ToEventBoundsPresent | src/module/event/NotionEvent/NotionEvent.dto.ts:174-184 | Every Notion date becomes two present bounds. |
| NotionEvents.AllDayRoundTrip | src/module/event/NotionEvent/NotionEvent.dto.ts:174-208 | A single day survives the trip to the Google form and back, whatever the date library does. |
| NotionEvents.AllDayRangeRoundTrip | src/module/event/NotionEvent/NotionEvent.dto.ts:174-216 | A range of days survives when the library leaves a formatted day unchanged. |
| NotionEvents.TimedRoundTrip | src/module/event/NotionEvent/NotionEvent.dto.ts:218-229 | A timed date already in UTC form survives the trip. |
| NotionEvents.MixedKindsRejected | src/module/event/NotionEvent/NotionEvent.dto.ts:204-216 | A Notion date mixing a day and a moment is rejected by the reverse translation. |
| NotionEvents.TimedInstantKeepsEnd | src/module/event/NotionEvent/NotionEvent.dto.ts:199-229 | An instant written with an offset keeps an end equal to its normalised start, because the end is compared before normalisation. |
| NotionEvents.StatusRoundTrip | src/module/event/NotionEvent/NotionEvent.dto.ts:62-146 | A cancelled event stays cancelled through the Notion record, and every other status becomes confirmed. |
| PropLookup.FirstPagePropWithId | src/utils/getProp.ts:17 | Finds the index of the first page property with the id, or nothing exactly when none has it. |
| PropLookup.GetProp | src/utils/getProp.ts:10-25 | A property returned has the requested id and type. |
| PropLookup.GetPropFirst | src/utils/getProp.ts:10-25 | The lookup decides on the first property with the id: success exactly when that one has the type, otherwise a type-mismatch error. |
| PropLookup.GetPropMissing | src/utils/getProp.ts:17-21 | With no property of the id, the read through undefined fails with a TypeError. |
| PropLookup.FirstDatabasePropWithId | src/utils/getDatabaseProp.ts:19-21 | Finds the index of the first database property with the id, or nothing exactly when none has it. |
| PropLookup.FirstDatabasePropAt | src/utils/getDatabaseProp.ts:19-21 | The index found is the first one holding the id. |
| PropLookup.GetDatabaseProp | src/utils/getDatabaseProp.ts:12-29 | A database property returned has the requested id and type. |
| PropLookup.GetDatabasePropFirst | src/utils/getDatabaseProp.ts:12-29 | As on pages, the first property with the id decides: success exactly when it has the type, otherwise a type-mismatch error. |
| PropLookup.GetDatabasePropMissing | src/utils/getDatabaseProp.ts:19-22 | With no property of the id, the lookup fails with a TypeError. |
| Context.StepName | src/module/worker/context/work.context.ts:61 | Every step is reported under a non-empty name without spaces, so the report line stays readable. |
| Context.InitialResult | src/module/worker/context/work.context.ts:60-74 | A fresh report is at step init, not failed, with every counter at -1 and no new calendars. |
| Context.SimpleFields | src/module/worker/context/work.context.ts:98-115 | The report line has eleven fields: user id, FAIL or SUCCESS, step, the five counters, the number of new calendars, their summed event count, and the elapsed time. |
| Context.SimpleResponseFields | src/module/worker/context/work.context.ts:98-115 | Split at its spaces, the report line gives back its fields in order, so its second word is FAIL exactly when the run failed. |
| Context.GetInitConfig | src/module/worker/context/work.context.ts:13-24 | A sync year of 0 takes the whole configured range; otherwise the range starts on 1 January of the year before, 01:00 at +09:00; it always ends at the configured maximum. |
| Context.CalendarSplit | src/module/worker/context/work.context.ts:83-91 | The connected calendars are exactly the CONNECTED ones, and the writeable ones are exactly the connected ones whose role is not reader. |
| Context.WorkContext.constructor | src/module/worker/context/work.context.ts:44-75 | A new context has no user and no window start; its window ends at the start of the current minute; its report is the initial one. |
| Context.WorkContext.SetUser | src/module/worker/context/work.context.ts:77-81 | The user is stored, the window starts at the user's last sync, and the sync configuration is derived from the user. |
| Context.WorkContext.SetCalendars | src/module/worker/context/work.context.ts:83-91 | The calendars are stored together with their connected and writeable parts. |
| Context.WorkContext.SetStep | src/module/worker/Worker.ts:128 | The report moves to the step, and nothing else in it changes. |
| Context.WorkContext.GetResult | src/module/worker/context/work.context.ts:93-96 | Without a user, reading its id throws and the report is untouched; otherwise the report line is rewritten from the report and the report is returned. |
| Context.WindowEmptyHoldsNothing | src/module/worker/Worker.ts:138-142 | The window is empty, and validation skips the run, exactly when no instant lies in it. |
| Workers.BranchSteps | src/module/worker/Worker.ts:54-73 | Every planned run starts with startSync and validation. |
| Workers.PlanShape | src/module/worker/Worker.ts:54-73 | Every run starts the sync, validates, and ends the sync last. An empty window runs no sync step. Otherwise exactly one of the full sync and the account set-up runs, and the full sync erases, then syncs events, then connects new calendars. |
| Workers.PagesToWrite | src/module/worker/Worker.ts:179-191 | The pages written to Google are exactly the updated pages the filter keeps. |
| Workers.EventsToWrite | src/module/worker/Worker.ts:193-203 | The events written to Notion are exactly the updated events the filter keeps. |
| Workers.UnmatchedAreWritten | src/module/worker/Worker.ts:179-203 | A page or event without a link, or whose link finds no updated counterpart, is always written. |
| Workers.MatchedPairWritesOne | src/module/worker/Worker.ts:179-203 | Of a page and an event that are each other's counterpart, exactly one is written: the page when the event's minute-stamp is later, the event otherwise, ties included. |
| Workers.NoEventsWritesEveryPage | src/module/worker/Worker.ts:179-203 | With no updated Google event, every updated page is written and no event. |
| Workers.PagesWithoutIdsKeepEveryEvent | src/module/worker/Worker.ts:193-203 | Updated pages carry no page id, so no event's link finds its page and every updated event is written. |
| Workers.PropagationOrder | src/module/worker/Worker.ts:205-211 | Every write to Notion comes before every write to Google, and each write is for a record the filter kept. |
| Workers.NoEventsPropagation | src/module/worker/Worker.ts:205-211 | With no updated Google event, the run writes every updated page to Google, in order, and nothing to Notion. |
| Workers.PageUpserts | src/module/worker/Worker.ts:205-207 | One Notion write per kept event, in order. |
| Workers.EventUpserts | src/module/worker/Worker.ts:209-211 | One Google write per kept page, in order. |
| Workers.Connections | src/module/worker/Worker.ts:223-228 | One new-calendar sync per pending calendar, in order. |
| Workers.PendingCalendars | src/module/worker/Worker.ts:219-221 | The calendars to connect are exactly the PENDING ones of the run. |
| Workers.EntriesKeys | src/module/worker/Worker.ts:223-228 | Connecting calendars keeps every earlier entry of the report and gives each connected calendar an entry. |
| Workers.PendingOrConnected | src/module/worker/Worker.ts:266-273 | Each calendar loaded for the run is either pending, and then connected by the run, or connected, and then synced: never both. |
| Workers.Worker.constructor | src/module/worker/Worker.ts:34-36 | A new worker holds a new context for the user and worker id, with no user loaded and nothing called. |
| Workers.Worker.Init | src/module/worker/Worker.ts:82-124 | The user's calendars that are not disconnected are loaded into the context with their connected and writeable parts; then init fails, with the missing-callback sync error when the user's tokens cannot be read, and with the TypeError of the missing `dependencyInjection` otherwise. |
| Workers.InitFailure | src/module/worker/Worker.ts:102-118 | Init fails with a sync error exactly when the user's tokens cannot be read, and that error is GOOGLE_CALLBACK_URL_NOT_FOUND; otherwise it fails with the TypeError of calling `dependencyInjection` on the Google Calendar assist. |
| Workers.Worker.StartSync | src/module/worker/Worker.ts:126-131 | The report enters startSync and the user row is locked for this run. |
| Workers.Worker.Validation | src/module/worker/Worker.ts:134-149 | The report enters validation. An empty window skips, validating and writing nothing. Otherwise the run passes exactly when the property mapping has no error, and fails with the Notion validation error listing them; the mapping and the user's row end as the restorations make them. |
| Workers.Worker.EraseDeletedEvent | src/module/worker/Worker.ts:152-165 | The report enters eraseDeletedEvent. A failed listing of deleted pages is the outcome and writes nothing; otherwise the pages are erased as `WorkerAssist.ErasePages` plans it, and, only if all went through, the links then marked for removal as `WorkerAssist.EraseLinks` plans it. Of the report only the step and the two erase counters change, each set to the number erased only when its erasure went through. |
| Workers.Worker.WritePage | src/module/worker/Worker.ts:206 | One event handed to `CUDPage` and the call recorded: the outcome, the Notion requests, the links and the next link id are those of `NotionAssist.CreatePlan`. |
| Workers.PagesWritten | src/module/worker/Worker.ts:205-207 | Events are written in order; once a write fails nothing more is written, and requests are only appended and link ids only grow. |
| Workers.EventsWritten | src/module/worker/Worker.ts:209-211 | Pages are written in order; once a write fails nothing more is written, and requests are only appended and link ids only grow. |
| Workers.UpdatesWritten | src/module/worker/Worker.ts:205-211 | The events to Notion, then the pages to Google only if every Notion write went through; requests on both sides are only appended and link ids only grow. |
| Workers.Worker.WritePages | src/module/worker/Worker.ts:205-207 | The events are handed to Notion one by one, up to the first failure, and all of them when none fails; the outcome and the store are those of `PagesWritten`, the in-order write of each event as `CUDPage` plans it. |
| Workers.Worker.WriteEvent | src/module/worker/Worker.ts:210 | One page handed to `CUDEvent` and the call recorded: the outcome, the Google requests, the links and the next link id are those of `GoogleAssist.EventPlan`. |
| Workers.Worker.WriteEvents | src/module/worker/Worker.ts:209-211 | The pages are handed to Google one by one, up to the first failure, and all of them when none fails; the outcome and the store are those of `EventsWritten`, the in-order write of each page as `CUDEvent` plans it. |
| Workers.Worker.WriteUpdates | src/module/worker/Worker.ts:179-211 | The kept events are written to Notion, then the kept pages to Google, up to the first failure; the outcome and the store are those of `UpdatesWritten`. |
| Workers.Worker.SyncEvents | src/module/worker/Worker.ts:168-212 | A failing read of the updated pages or events ends the step before any write; a rewinding Google failure moves the last sync back. Otherwise the kept events and pages are written in propagation order, and the outcome and the store are those of `UpdatesWritten` over the linked pages. |
| Workers.Worker.Connect | src/module/worker/Worker.ts:224 | One calendar connected as `syncNewCalendar` does it (`CalendarConnected`): the options update sent and applied to the schema, the row connected and given the option id found, the outcome, and the rewind of a failing listing; the call is recorded and the report gains its entry. |
| Workers.Worker.ConnectNext | src/module/worker/Worker.ts:223-228 | Connecting the next pending calendar extends the calls and the report's entries by that calendar. |
| Workers.Worker.ConnectPending | src/module/worker/Worker.ts:219-228 | The first n pending calendars are connected in order, all of them when none fails, and the report gains exactly their entries. |
| Workers.Worker.SyncNewCalendars | src/module/worker/Worker.ts:215-229 | The report enters syncNewCalendar and the pending calendars are connected in order, up to the first failure. |
| Workers.Worker.InitAccount | src/module/worker/Worker.ts:232-246 | The same as syncNewCalendars, reported under initAccount. |
| Workers.Worker.EndSync | src/module/worker/Worker.ts:249-255 | The report enters endSync, the user is unlocked with the window end as last sync, and the user's expired error logs are removed. |
| Workers.Worker.FullSync | src/module/worker/Worker.ts:64-67 | Erase, sync events and connect new calendars run in this order, up to the first that fails. |
| Workers.Worker.SyncAndConnect | src/module/worker/Worker.ts:66-67 | The events are synced, then the new calendars connected, up to the first that fails. |
| Workers.Worker.StartAndValidate | src/module/worker/Worker.ts:56-57 | startSync and validation run in order; the run is skipped exactly when the window is empty, and then nothing is written to Notion. |
| Workers.Worker.Proceed | src/module/worker/Worker.ts:64-72 | The full sync or the account set-up, then endSync; a run that gets through ends at endSync with the user unlocked. |
| Workers.Worker.Continue | src/module/worker/Worker.ts:59-72 | An empty window goes straight to endSync and writes nothing else; otherwise the branch and then endSync. |
| Workers.Worker.RunSteps | src/module/worker/Worker.ts:54-56 | runSteps ends at init: the calendars are loaded and it fails with init's failure, before any step is entered. |
| Workers.Worker.AfterInit | src/module/worker/Worker.ts:56-72 | The steps after init follow the planned order up to the first failure. A run that gets through ends at endSync with the user unlocked. A skipped run writes nothing but the user row and the error logs. A new user only connects pending calendars. Since init always fails, no run reaches them. |
| Workers.Worker.Guarded | src/module/worker/Worker.ts:46-49 | Under the deadline and the exception filter the caught failure is the TimeoutError when the deadline passed, and init's failure otherwise. When the write of the user row succeeds, the report is marked failed (with the code of a sync error as its reason) and the user is unlocked; otherwise that write's failure escapes and neither report nor users change. |
| Workers.Worker.Run | src/module/worker/Worker.ts:38-52 | A missing user throws before anything runs. Otherwise the report comes back failed at the step it started in (init, for a new worker), with GOOGLE_CALLBACK_URL_NOT_FOUND as reason when the user's tokens cannot be read and no timeout; only the user's lock is written. A failing write of the user row escapes instead. The report carries its summary line, rebuilt after the filter. |
| NotionErrorFilter.FirstMatch | src/module/worker/assist/notionAssist/apiErrorFilter.ts:29-31 | The rule picked is one whose condition holds; none is picked exactly when no rule's condition holds. |
| NotionErrorFilter.FirstMatchFrom | src/module/worker/assist/notionAssist/apiErrorFilter.ts:29-31 | Rules whose conditions fail before position i do not affect the pick. |
| NotionErrorFilter.SelectBaseRule | src/module/worker/assist/notionAssist/apiErrorFilterRule.ts:17-116 | Without extra rules, the pick is the base rule of the status: the first of 400, 401, 404 by target, 429, 500, 503 that applies, else the catch-all. |
| NotionErrorFilter.SelectBaseRuleFrom | src/module/worker/assist/notionAssist/apiErrorFilterRule.ts:17-116 | Scanning the base table from any point before the rule of the status finds that rule. |
| NotionErrorFilter.BaseRuleCallback | src/module/worker/assist/notionAssist/apiErrorFilterRule.ts:17-116 | The callback of the base rule of a status throws with that status's code. |
| NotionErrorFilter.BaseRulesClassify | src/module/worker/assist/notionAssist/apiErrorFilter.ts:17-35 | Without extra rules, every Notion API error is rethrown as a sync error with its status's code, a 404 as database or page not found by target. |
| NotionErrorFilter.PassThrough | src/module/worker/assist/notionAssist/apiErrorFilter.ts:17-22 | A successful call passes its value through; an error that is not a Notion API error is rethrown unchanged. |
| NotionErrorFilter.NeverSwallowed | src/module/worker/assist/notionAssist/apiErrorFilterRule.ts:105-115 | Because of the catch-all rule, no Notion API error is silently swallowed. |
| NotionErrorFilter.IgnoreRulesThrow | src/module/worker/assist/notionAssist/apiErrorFilterRule.ts:125-134 | An error matching an ignore rule is not ignored: the rule has no callback, so calling it throws a TypeError. |
| NotionErrorFilter.IgnoreRulesOtherwiseBase | src/module/worker/assist/notionAssist/apiErrorFilter.ts:24-27 | With the ignore rules in front, an error matching neither is classified by the base rules alone. |
| GoogleErrorFilter.SelectsNoResponse | src/module/worker/assist/googleCalendarAssist/apiErrorFilterRules.ts:24-34 | A response without a status meets NO_RESPONSE. |
| GoogleErrorFilter.Selects400 | src/module/worker/assist/googleCalendarAssist/apiErrorFilterRules.ts:36-46 | A 400 meets INVALID_REQUEST. |
| GoogleErrorFilter.Selects401 | src/module/worker/assist/googleCalendarAssist/apiErrorFilterRules.ts:48-58 | A 401 meets INVALID_CREDENTIALS. |
| GoogleErrorFilter.Selects403Rate | src/module/worker/assist/googleCalendarAssist/apiErrorFilterRules.ts:60-75 | A 403 with a rate-limit message meets the first RATE_LIMIT. |
| GoogleErrorFilter.Selects403Usage | src/module/worker/assist/googleCalendarAssist/apiErrorFilterRules.ts:77-93 | A 403 with a usage-limit message meets USER_CALENDAR_USAGE_LIMIT. |
| GoogleErrorFilter.Selects403Other | src/module/worker/assist/googleCalendarAssist/apiErrorFilterRules.ts:95-105 | Any other 403 meets FORBIDDEN. |
| GoogleErrorFilter.Selects404 | src/module/worker/assist/googleCalendarAssist/apiErrorFilterRules.ts:107-117 | A 404 meets NOT_FOUND. |
| GoogleErrorFilter.Selects410Deleted | src/module/worker/assist/googleCalendarAssist/apiErrorFilterRules.ts:119-122 | A 410 with message 'deleted' meets ALREADY_DELETED. |
| GoogleErrorFilter.Selects410NoReason | src/module/worker/assist/googleCalendarAssist/apiErrorFilterRules.ts:123-127 | Any other 410 whose body has no first error entry makes the reason lookup throw a TypeError naming the property read through undefined: `errors` without an error object, `0` without an errors list, `reason` for an empty list. |
| GoogleErrorFilter.Selects410TooLongAgo | src/module/worker/assist/googleCalendarAssist/apiErrorFilterRules.ts:123-145 | A 410 with reason updatedMinTooLongAgo meets GONE_UPDATED_MIN_TOO_LONG_AGO. |
| GoogleErrorFilter.Selects410Other | src/module/worker/assist/googleCalendarAssist/apiErrorFilterRules.ts:146-156 | Any other 410 with a first error entry meets GONE, including an entry without a reason. |
| GoogleErrorFilter.ReasonOf | src/module/worker/assist/googleCalendarAssist/apiErrorFilter.ts:101 | Reading `data.error.errors[0].reason` succeeds exactly when there is a first entry, giving its reason or none; each missing link throws a TypeError. |
| GoogleErrorFilter.Selects429 | src/module/worker/assist/googleCalendarAssist/apiErrorFilterRules.ts:158-168 | A 429 meets the second RATE_LIMIT. |
| GoogleErrorFilter.Selects500 | src/module/worker/assist/googleCalendarAssist/apiErrorFilterRules.ts:170-181 | A 500 meets INTERNAL_SERVER_ERROR. |
| GoogleErrorFilter.SelectsOther | src/module/worker/assist/googleCalendarAssist/apiErrorFilterRules.ts:183-194 | Every other status meets the catch-all UNKNOWN_ERROR. |
| GoogleErrorFilter.TableSelects | src/module/worker/assist/googleCalendarAssist/apiErrorFilterRules.ts:15-194 | The table, tried in order, selects exactly the rule of one plain decision on status, message and reason; some rule is always selected unless the reason lookup throws. |
| GoogleErrorFilter.ExtraRuleFirst | src/module/worker/assist/googleCalendarAssist/apiErrorFilterRules.ts:199-207 | With IGNORE_NOT_FOUND in front, a 404 meets it and every other response meets what the base table gives. |
| GoogleErrorFilter.ChainVerdict | src/module/worker/assist/googleCalendarAssist/apiErrorFilter.ts:22-151 | No response throws UNKNOWN_ERROR. Only a 410 'deleted' is swallowed. Only a 410 with reason updatedMinTooLongAgo rewinds the last sync and throws GONE_UPDATED_MIN_TOO_LONG_AGO. It crashes exactly on any other 410 without a first error entry, with the TypeError of the reason lookup; a first entry without a reason throws GONE. |
| GoogleErrorFilter.Filter | src/module/worker/assist/googleCalendarAssist/apiErrorFilter.ts:15-21 | Success passes through, other errors are rethrown unchanged, Gaxios errors follow the chain; the last sync is rewound exactly when the chain says so. |
| GoogleErrorFilter.Chain403 | src/module/worker/assist/googleCalendarAssist/apiErrorFilter.ts:50-85 | On a 403 the chain throws RATE_LIMIT for a rate-limit message, FORBIDDEN for a usage-limit message, USER_CALENDAR_USAGE_LIMIT otherwise. |
| GoogleErrorFilter.Table403 | src/module/worker/assist/googleCalendarAssist/apiErrorFilterRules.ts:60-105 | On a 403 the table gives RATE_LIMIT, USER_CALENDAR_USAGE_LIMIT for a usage-limit message, FORBIDDEN otherwise. |
| GoogleErrorFilter.TableAndChainDisagreeOnlyOn403 | src/module/worker/assist/googleCalendarAssist/apiErrorFilter.ts:50-85 | The table and the chain decide alike on every response except a 403 without a rate-limit message, where their two codes are swapped. |
| GoogleErrorFilter.OnlyDeletedReturns | src/module/worker/assist/googleCalendarAssist/apiErrorFilter.ts:96-99 | A 410 'deleted' is the only error the chain lets through. |
| ExceptionFilter.WorkerExceptionFilter | src/module/worker/exception/exceptionFilter.ts:14-56 | Success changes nothing. A failure unlocks the user and reports the failure, unless that write to the database fails; only then does the database's error escape, with the report untouched. |
| ExceptionFilter.ReportedFailure | src/module/worker/exception/exceptionFilter.ts:30-43 | A caught failure always marks the report failed. Its reason is the error's code for a sync error and stays as it was otherwise. Nothing else in the report changes. |
| ExceptionFilter.ReportedLineSaysFail | src/module/worker/exception/exceptionFilter.ts:30 | The report line of a caught failure says FAIL in its second field. |
| ExceptionFilter.UnlockedReleasesLock | src/module/worker/exception/exceptionFilter.ts:22-24 | The filter's write leaves the user unlocked, the rest of the row as it was, and every other row untouched. |
| GoogleApi.VersionKey | src/module/worker/assist/googleCalendarAssist/api.ts:16 | The redirect-URL version is looked up as its decimal text, or "null" when unset. |
| GoogleApi.GetTokens | src/module/worker/assist/googleCalendarAssist/api.ts:13-38 | Succeeds exactly when a non-empty callback URL is registered for the user's version, returning the user's tokens with it; otherwise a sync error for a missing callback URL. |
| GoogleApi.Rewound | src/module/worker/assist/googleCalendarAssist/apiErrorFilter.ts:101-110 | The rewind moves only the user's last sync, to ten days before now, and leaves every other row as it was. |
| GoogleApi.ApplyRewind | src/module/worker/assist/googleCalendarAssist/apiErrorFilter.ts:101-110 | The user table is rewound exactly when the filter asks for it. |
| GoogleApi.DeleteEventSwallows | src/module/worker/assist/googleCalendarAssist/api.ts:65-85 | Deletion succeeds exactly on success, a 404 or a 410. A Gaxios error without response ends in a TypeError. Other errors pass through or get the filter's code. It never rewinds. |
| GoogleApi.DeleteEvent | src/module/worker/assist/googleCalendarAssist/api.ts:65-85 | One delete request is sent, and the outcome is the swallowing decision on its answer. |
| GoogleApi.FromGoogleEvents | src/module/worker/assist/googleCalendarAssist/api.ts:112-118 | One record per listed event, in order, with the event's id, the listed calendar and the event as original. |
| GoogleApi.UpdatedBefore | src/module/worker/assist/googleCalendarAssist/api.ts:141-142 | A listing keeps exactly the events updated strictly before the window end. |
| GoogleApi.UpdatedEventsCall | src/module/worker/assist/googleCalendarAssist/api.ts:121-146 | Without a window start, formatting it throws a RangeError. Each event returned was updated before the window end and is on the listed calendar. |
| GoogleApi.GetUpdatedEventsByCalendar | src/module/worker/assist/googleCalendarAssist/api.ts:121-146 | The listing goes through the filter, and an updatedMinTooLongAgo answer moves the user's last sync ten days back. |
| GoogleApi.GetEventsByCalendar | src/module/worker/assist/googleCalendarAssist/api.ts:99-119 | An answered listing gives one record per event of the sync range; a failed one goes through the filter, which may rewind the user. |
| GoogleApi.LinkProperties | src/module/worker/assist/googleCalendarAssist/api.ts:232-238 | The shared properties gain the two keys marking the event as linked to its page; the other keys are kept. |
| GoogleApi.LinkPropertiesIdempotent | src/module/worker/assist/googleCalendarAssist/api.ts:267-280 | Writing the link keys twice gives what writing them once gives. |
| GoogleApi.CreateBody | src/module/worker/assist/googleCalendarAssist/api.ts:218-256 | The inserted body carries the event's dates, texts and status, the link keys, and one attachment pointing to the page. |
| GoogleApi.UpdateAttachments | src/module/worker/assist/googleCalendarAssist/api.ts:282-313 | The attachments that do not point to the page are kept in order. The page's attachment comes last, titled with the summary; it is newly made, with the Notion icon, when none existed. |
| GoogleApi.UpdateAttachmentsIdempotent | src/module/worker/assist/googleCalendarAssist/api.ts:282-313 | Rewriting the attachments of an already rewritten event changes nothing more. |
| GoogleApi.UpdateBody | src/module/worker/assist/googleCalendarAssist/api.ts:258-321 | The update body carries the event's fields, keeps the existing extended properties with the link keys added, and rewrites the attachments. |
| GoogleApi.LinkToUndefinedPage | src/module/worker/assist/googleCalendarAssist/api.ts:232-248 | An event built from the neutral record has no page id, so its link key and attachment point to the page "undefined". |
| GoogleApi.CreateEvent | src/module/worker/assist/googleCalendarAssist/api.ts:218-256 | An event without calendar throws before sending; otherwise one insert is sent to its calendar and the answer is read back with that calendar. |
| GoogleApi.UpdateEvent | src/module/worker/assist/googleCalendarAssist/api.ts:258-321 | An event without calendar throws before sending; otherwise the existing event is fetched, one update is sent, and the answer is read back. |
| GoogleAssist.Validation | src/module/worker/assist/googleCalendarAssist/index.ts:33-35 | The Google side always validates. |
| GoogleAssist.DeleteEvent | src/module/worker/assist/googleCalendarAssist/index.ts:37-39 | Deletion is forwarded, with the API's request and outcome. |
| GoogleAssist.ToEvents | src/module/worker/assist/googleCalendarAssist/index.ts:42-44 | Each listed record is turned into a neutral record, in order. |
| GoogleAssist.EventListingRecords | src/module/worker/assist/googleCalendarAssist/index.ts:41-45 | An answered listing gives one neutral record per Google event, in order, with its id, dates and texts, the listed calendar, and no page id or link. |
| GoogleAssist.GetEventByCalendar | src/module/worker/assist/googleCalendarAssist/index.ts:41-45 | The records of a listing of the calendar's whole range; a failed listing is filtered and may rewind the user. |
| GoogleAssist.ListingFailsOnSwallowed | src/module/worker/assist/googleCalendarAssist/index.ts:42-44 | A failed listing never yields records: the only error the filter swallows, a 410, makes the map throw. |
| GoogleAssist.FirstFailureIsFirst | src/module/worker/assist/googleCalendarAssist/index.ts:49-52 | The listings fail exactly when one calendar's listing fails, and then with the failure of the first such calendar. |
| GoogleAssist.RewindIsFailure | src/module/worker/assist/googleCalendarAssist/index.ts:50 | A rewind only ever comes from a listing answered with an error that asks for it. |
| GoogleAssist.FetchUpdated | src/module/worker/assist/googleCalendarAssist/index.ts:49-52 | The connected calendars are listed in order, stopping at the first failure; only a failing listing that asks for it moves the last sync back. |
| GoogleAssist.FetchCalendar | src/module/worker/assist/googleCalendarAssist/index.ts:50 | One calendar's listing; a failing call may move the last sync back. |
| GoogleAssist.FailureStays | src/module/worker/assist/googleCalendarAssist/index.ts:49-52 | Once a listing has failed, later calendars are not looked at. |
| GoogleAssist.GetUpdatedEvents | src/module/worker/assist/googleCalendarAssist/index.ts:47-58 | The inner list shadows the accumulator, so a run that gets through returns and counts no events, and counts the connected calendars. A failing listing leaves the report alone and may rewind the user. |
| GoogleAssist.CUDEvent | src/module/worker/assist/googleCalendarAssist/index.ts:60-77 | The requests sent, the links saved and the outcome are those of the event plan for the page. |
| GoogleAssist.CUDEventSkipsReadOnly | src/module/worker/assist/googleCalendarAssist/index.ts:68 | A page without calendar, or on a calendar the user can only read, sends and saves nothing. |
| GoogleAssist.CUDEventFollowsFirstLink | src/module/worker/assist/googleCalendarAssist/index.ts:63-70 | The converted page has no page id, so the link looked up is the user's first one: a writable page gets a Google event exactly when that link has a Google event id. |
| GoogleAssist.CUDEventLinksInsertedEvent | src/module/worker/assist/googleCalendarAssist/index.ts:70-76 | A created event goes to the page's own calendar, and its link is saved with the new event's id, no page id, and the window end on both sides. |
| NotionApi.OrEmpty | src/module/worker/assist/notionAssist/api.ts:162 | `s or ''`: the value when truthy, the empty string otherwise. |
| NotionApi.OrNull | src/module/worker/assist/notionAssist/api.ts:179 | `s or null`: the value when truthy, null otherwise. |
| NotionApi.PagePayloadOf | src/module/worker/assist/notionAssist/api.ts:146-210 | Reading the calendar name of an event without calendar throws. Otherwise the page gets the title, description and location or '', the link or null, the calendar's name and the date. |
| NotionApi.SelectedName | src/module/worker/assist/notionAssist/api.ts:449-466 | The calendar option's name is read through the first property with the mapped id. A missing property, an empty select or a property of another kind each throw their own TypeError. |
| NotionApi.CalendarByPageObject | src/module/worker/assist/notionAssist/api.ts:449-466 | With no calendars the option is never read and nothing is found. Otherwise it succeeds exactly when the option name reads, failing with that read's TypeError; the calendar found is the first one with that name, and none is found exactly when no calendar has that name. |
| NotionApi.ConvertPage | src/module/worker/assist/notionAssist/api.ts:83-89 | A page of a query answer becomes a record with itself as original, the calendar it names, and no page id. When calendars exist and the page's option cannot be read, that read's error is the page's error; with no calendars the page converts with no calendar. |
| NotionApi.ConvertPages | src/module/worker/assist/notionAssist/api.ts:280-286 | Converting a query answer keeps order and length and succeeds exactly when every page converts. |
| NotionApi.CalendarNames | src/module/worker/assist/notionAssist/api.ts:37-44 | The writeable calendars' names, in order, as the query's calendar filter. |
| NotionApi.GetDeletedPages | src/module/worker/assist/notionAssist/api.ts:34-90 | One record per page the deleted-pages query answers. |
| NotionApi.EditedBefore | src/module/worker/assist/notionAssist/api.ts:275-279 | A query answer keeps exactly the pages edited strictly before the window end. |
| NotionApi.GetUpdatedPages | src/module/worker/assist/notionAssist/api.ts:212-287 | An invalid window start throws a RangeError. Each page returned was edited before the window end and carries no page id. |
| NotionApi.ConvertedEditedBefore | src/module/worker/assist/notionAssist/api.ts:275-286 | Converting pages keeps each record's page, so the bound on edit times carries over. |
| NotionApi.ConvertEditedBefore | src/module/worker/assist/notionAssist/api.ts:275-286 | The cut and converted answer holds only pages edited before the window end, with no page id. |
| NotionApi.DeletePageSwallows | src/module/worker/assist/notionAssist/api.ts:100-124 | Deletion succeeds exactly on success, an already archived page or a 404. Another Notion error is thrown with the base page code. Any other error is rethrown unchanged. |
| NotionApi.DeletePage | src/module/worker/assist/notionAssist/api.ts:100-124 | One archive request is sent, and the outcome is the swallowing decision on its answer. |
| NotionApi.AssignOptionIds | src/module/worker/assist/notionAssist/api.ts:126-144 | The options are stored in order with their names; those sent with an id keep it. |
| NotionApi.WithOptions | src/module/worker/assist/notionAssist/api.ts:126-144 | Only the property with the id gets the new options. |
| NotionApi.UpdateCalendarOptions | src/module/worker/assist/notionAssist/api.ts:126-144 | One update is sent, and the calendar property's options are replaced by the given list, as stored. |
| NotionApi.CreatePage | src/module/worker/assist/notionAssist/api.ts:146-210 | An event without calendar throws before sending; otherwise one create is sent and the answer is read back with the event's calendar. |
| NotionApi.UpdatePage | src/module/worker/assist/notionAssist/api.ts:341-404 | An event without calendar throws before sending; otherwise one update of the event's page id is sent and the answer read back. |
| NotionApi.TriedFresh | src/module/worker/assist/notionAssist/api.ts:428-432 | No later suffix has been tried yet. |
| NotionApi.TriedCard | src/module/worker/assist/notionAssist/api.ts:428-432 | Every try is a new name. |
| NotionApi.TriedStep | src/module/worker/assist/notionAssist/api.ts:428-432 | While candidates are taken, the number of tries stays within the number of schema names, which bounds the loop. |
| NotionApi.EarlierSuffixesTaken | src/module/worker/assist/notionAssist/api.ts:428-432 | When a suffixed candidate is the first free one, every earlier suffix is taken. |
| NotionApi.FirstFreeName | src/module/worker/assist/notionAssist/api.ts:428-432 | The name chosen is not in the schema: the name itself when free, otherwise the first suffix `name (i)` whose predecessors are all taken. |
| NotionApi.AddProp | src/module/worker/assist/notionAssist/api.ts:411-447 | An existing property of that name and type is returned and nothing is sent. Otherwise one property is created under the first free name, the schema only grows, and the property found under the original name is returned. |
| NotionApi.AddPropReturnsOriginal | src/module/worker/assist/notionAssist/api.ts:445-446 | On a clash with another type, the property returned is the existing one, whose type is not the one asked for. |
| NotionAssist.ValidationDetailLines | src/module/worker/assist/notionAssist/index.ts:53-58 | The detail splits back on newlines into exactly one `error: message` line per validation error, in order, when no error text spans lines. |
| NotionAssist.ValidationAndRestore | src/module/worker/assist/notionAssist/index.ts:48-62 | The validation runs once; with no error the step passes, otherwise it fails with the validation sync error whose detail carries every error found (user-property errors first, then schema errors). The user changes only in its property mapping, which ends as the original with every recreated property mapped to its new id; the row is rewritten only when something was recreated. A mapping with no error and nothing to recreate passes and changes neither the user nor the users table. |
| NotionAssist.OptionsOf | src/module/worker/assist/notionAssist/index.ts:184-187 | One `{id, name}` option per calendar, position by position. |
| NotionAssist.CalendarOptions | src/module/worker/assist/notionAssist/index.ts:178-188 | Only calendars with an option id contribute; every such calendar's option is present and every option comes from a calendar of the run. |
| NotionAssist.PropertyIds | src/module/worker/assist/notionAssist/index.ts:79-81 | The option ids of the run's calendars, position by position. |
| NotionAssist.SchemaProperty | src/module/worker/assist/notionAssist/index.ts:88-90 | A property found is in the schema and carries the mapped calendar id. |
| NotionAssist.FirstUnused | src/module/worker/assist/notionAssist/index.ts:86-92 | The option found is one whose id no calendar uses; none is found exactly when every option's id is used. |
| NotionAssist.FirstUnusedIsLast | src/module/worker/assist/notionAssist/index.ts:86-92 | When only the last option is unused, it is the one found. |
| NotionAssist.NewOptionId | src/module/worker/assist/notionAssist/index.ts:84-92 | A missing calendar property or a non-select one fails with the TypeError of reading through `undefined`; an id found belongs to an option of that property and to no calendar of the run. |
| NotionAssist.AddCalendarProp | src/module/worker/assist/notionAssist/index.ts:68-97 | One options update is sent (the existing options plus the new calendar's without id), the schema takes the ids Notion assigns, and the calendar row is updated with the first unused option id, or the TypeError is returned and no row changes. |
| NotionAssist.SchemaPropertyWithOptions | src/module/worker/assist/notionAssist/index.ts:73-92 | Rewriting the options leaves the calendar property findable with the new options. |
| NotionAssist.SentOptionsUsed | src/module/worker/assist/notionAssist/index.ts:70-79 | Of the options sent, all but the last carry an id already used by a calendar; the last is the new calendar's. |
| NotionAssist.AddedOptionIsChosen | src/module/worker/assist/notionAssist/index.ts:68-97 | When Notion gives the new option a fresh id, that id is the one stored for the calendar. |
| NotionAssist.ReusedOptionIdThrows | src/module/worker/assist/notionAssist/index.ts:86-92 | When the id Notion gives is already a calendar's, no option is free and the step throws reading `id` of `undefined`. |
| NotionAssist.WithLinks | src/module/worker/assist/notionAssist/index.ts:106-113 | Every page keeps its place and is given the link found for its page id. |
| NotionAssist.GetUpdatedPages | src/module/worker/assist/notionAssist/index.ts:103-117 | A failed listing fails with the same error and leaves the counters alone; otherwise the pages come back with their links and the Notion-to-Google count is their number. |
| NotionAssist.AbsentPageIdsShareFirstLink | src/module/worker/assist/notionAssist/index.ts:106-113 | Pages without page id all get the user's first link. |
| NotionAssist.UpdatedPagesShareFirstLink | src/module/worker/assist/notionAssist/index.ts:103-117 | Since the pages listed carry no page id, every updated page is given the user's first link. |
| NotionAssist.CreateEventPage | src/module/worker/assist/notionAssist/index.ts:160-176 | The requests sent, the links saved, the link id counter and the outcome are those of the create plan for the event. |
| NotionAssist.CreateSkipsCancelled | src/module/worker/assist/notionAssist/index.ts:161 | A cancelled event sends nothing, saves nothing and passes. |
| NotionAssist.CreateWritesBackOnlyForWritable | src/module/worker/assist/notionAssist/index.ts:160-176 | At most one page is created and at most one link saved, never a link without a page; the step passes exactly when a link was saved for a reader calendar, and fails with the missing write-back for any other calendar. |
| NotionAssist.CreatedLinkFields | src/module/worker/assist/notionAssist/index.ts:166-168 | The link saved carries the next link id, the user, the event's Google ids and calendar, both timestamps at the window end, the synced status, and no page id. |
| NotionAssist.CreatedLinkHasNoPage | src/module/worker/assist/notionAssist/index.ts:163-168 | Whatever Notion answers, a link made for a created page has no page id. |
| NotionAssist.UpdateEventPage | src/module/worker/assist/notionAssist/index.ts:140-158 | The requests sent, the links saved and the outcome are those of the update plan for the event. |
| NotionAssist.UpdateArchivesCancelled | src/module/worker/assist/notionAssist/index.ts:144-147 | A cancelled linked event archives its page and does nothing else. |
| NotionAssist.UpdateMovesThenRefreshes | src/module/worker/assist/notionAssist/index.ts:149-157 | A calendar change is the first link saved; the Notion timestamp is refreshed exactly when the page update succeeds; the update request is addressed to an absent page id. |
| NotionAssist.UpdateNeedsCalendar | src/module/worker/assist/notionAssist/index.ts:149-151 | A live event without calendar fails with the TypeError before anything is sent or saved. |
| NotionAssist.CUDPage | src/module/worker/assist/notionAssist/index.ts:131-138 | An event read from Google is always new, so the page write is always the create plan. |
| WorkerAssist.FoldFailureStays | src/module/worker/assist/workerAssist/index.ts:41-43 | Once an awaited step of the loop has thrown, the later items are not processed and nothing more changes. |
| WorkerAssist.EraseEventShape | src/module/worker/assist/workerAssist/index.ts:67-76 | The link's page is archived first; at most the link's own Google event is deleted, and only on a calendar that is not read-only (always, when the erasure succeeds); rows are only removed, and on success the link's row is gone. |
| WorkerAssist.EraseLinksDeletesOnlyWritable | src/module/worker/assist/workerAssist/index.ts:48-56 | Every Google deletion the link loop sends is of one of the links it erases, on a writable calendar; no row is added. |
| WorkerAssist.ErasePagesDeletesOnlyWritable | src/module/worker/assist/workerAssist/index.ts:39-46 | Every Google deletion the page loop sends is of a link present when it started, on a writable calendar; no row is added. |
| WorkerAssist.PageWithoutIdErasesFirstLink | src/module/worker/assist/workerAssist/index.ts:58-65 | A page without id erases the user's first link with its event, or, with no link left, archives the page `undefined`. |
| WorkerAssist.EraseEvent | src/module/worker/assist/workerAssist/index.ts:67-76 | The links, the requests and the outcome are those of the erasure plan for the link. |
| WorkerAssist.EraseNotionPage | src/module/worker/assist/workerAssist/index.ts:58-65 | The links, the requests and the outcome are those of the page erasure plan: the page's link erased with its event, or the bare page archived. |
| WorkerAssist.PageIds | src/module/worker/assist/workerAssist/index.ts:41-42 | The page ids of the deleted pages, position by position. |
| WorkerAssist.DeletedPagesHaveNoId | src/module/worker/assist/workerAssist/index.ts:40-42 | Every deleted page listed carries no page id, so each erasure looks up the user's first link. |
| WorkerAssist.EraseNextPage | src/module/worker/assist/workerAssist/index.ts:41-43 | One more iteration of the page loop brings the store to the fold of one more page. |
| WorkerAssist.ErasePageIds | src/module/worker/assist/workerAssist/index.ts:41-43 | The store ends as the in-order erasure of the pages, stopped at the first failure. |
| WorkerAssist.EraseDeletedNotionPage | src/module/worker/assist/workerAssist/index.ts:39-46 | A failed listing fails and changes nothing; otherwise the pages are erased in order up to the first failure, and the erased-page count is set only when every erasure went through. |
| WorkerAssist.EraseNextLink | src/module/worker/assist/workerAssist/index.ts:51-53 | One more iteration of the link loop brings the store to the fold of one more link. |
| WorkerAssist.EraseLinkList | src/module/worker/assist/workerAssist/index.ts:51-53 | The store ends as the in-order erasure of the links, stopped at the first failure. |
| WorkerAssist.EraseDeletedEventLink | src/module/worker/assist/workerAssist/index.ts:48-56 | The user's links marked for removal, as found at the start, are erased in order up to the first failure; the count is set only when every erasure went through. |
| WorkerAssist.AddEventByGCal | src/module/worker/assist/workerAssist/index.ts:78-82 | The step always fails with the missing `addPage`, before anything is written. |
| WorkerAssist.StartSyncUserUpdate | src/module/worker/assist/workerAssist/index.ts:84-91 | Only the user's row changes: start time, lock, bot id and bot version. |
| WorkerAssist.EndSyncUserUpdate | src/module/worker/assist/workerAssist/index.ts:93-100 | Only the user's row changes: status cleared, lock released, bot id cleared, last sync at the window end. |
| WorkerAssist.StartThenEnd | src/module/worker/assist/workerAssist/index.ts:84-100 | Starting takes the lock; starting then ending releases it, keeps who ran and when, moves the next window start to this window's end, and changes no other row. |
| WorkerAssist.EndOverridesRewind | src/module/worker/assist/workerAssist/index.ts:93-100 | Ending the run overwrites the rewind the Google error filter writes, so the rewind only lasts because its error aborts the run. |
| WorkerAssist.DeleteOldErrorLogs | src/module/worker/assist/workerAssist/index.ts:102-108 | Exactly the user's unarchived logs older than 21 days are removed; the other logs stay, in order. |
| WorkerAssist.NewCalendarNeedsNoEvents | src/module/worker/assist/workerAssist/index.ts:110-137 | Connecting a new calendar succeeds exactly when the option id is found, the listing succeeds with no event and the row is still there; with events it always fails with the missing `addPage`. |
| WorkerAssist.SyncNewCalendar | src/module/worker/assist/workerAssist/index.ts:110-137 | The report entry is written with a zero count, the row is marked connected whatever follows, one options update is sent, the option id is stored when found, the outcome is the first failure in source order, and only a rewinding listing error rewinds the user. |
| WorkerAssist.SyncedCountIsListed | src/module/worker/assist/workerAssist/index.ts:131-136 | A connection that succeeds listed no event, so the zero count written first equals the number of events listed. |
| Validate.UserPropErrors | src/module/worker/assist/notionAssist/validate.ts:45-57 | One check of a list reports at most one error per property. |
| Validate.UserPropRestores | src/module/worker/assist/notionAssist/validate.ts:45-57 | One check of a list recreates at most one property per name. |
| Validate.UserPropErrorsMembers | src/module/worker/assist/notionAssist/validate.ts:45-57 | An error is reported exactly for a listed property that is unset in the mapping and cannot be recreated. |
| Validate.UserPropErrorsAreUnaddable | src/module/worker/assist/notionAssist/validate.ts:42-74 | Whether or not additional properties are synced, the user-property errors are exactly the missing-property errors of an unset title, calendar or date. |
| Validate.CheckNotionProp | src/module/worker/assist/notionAssist/validate.ts:79-115 | A key is only ever recreated when it is addable. |
| Validate.NotionPropErrors | src/module/worker/assist/notionAssist/validate.ts:79-115 | At most one error per key of the mapping. |
| Validate.NotionPropRestoresAddable | src/module/worker/assist/notionAssist/validate.ts:92-95 | Only addable properties are ever recreated by the schema check. |
| Validate.CheckNotionPropCases | src/module/worker/assist/notionAssist/validate.ts:79-115 | A property found with the expected type (or with no expected type) raises nothing; one found with another type is reported with both types; a property not found is reported exactly when it cannot be recreated and is not a disabled additional property. |
| Validate.NotionPropErrorsMembers | src/module/worker/assist/notionAssist/validate.ts:79-115 | An error is reported exactly when some key of the mapping reports it. |
| Validate.NotionPropErrorsOrigin | src/module/worker/assist/notionAssist/validate.ts:79-115 | Every schema error comes from a key of the mapping: not-found for a non-addable key whose id is absent from the schema, wrong-type for a key whose property has another type than expected. |
| Validate.ErrorLines | src/module/worker/assist/notionAssist/index.ts:55-56 | One `error: message` line per validation error, position by position. |
| Validate.RestampedGet | src/module/worker/assist/notionAssist/validate.ts:118-137 | After recreations whose names are in the schema, every recreated key maps to the id of the schema property of that name and every other key keeps its id. |
| Validate.RestampedGrow | src/module/worker/assist/notionAssist/validate.ts:121 | Recreations whose names are found in a schema keep their ids when the schema later grows by added properties. |
| Validate.NotionValidation.constructor | src/module/worker/assist/notionAssist/validate.ts:27-31 | The validation starts with no error, nothing restored and nothing checked. |
| Validate.NotionValidation.RestoreProp | src/module/worker/assist/notionAssist/validate.ts:118-137 | The property is added to the schema (which only grows), the id of the property then found under its name is mapped to it in the context and in the user's row, and the property is recorded as restored. |
| Validate.NotionValidation.CheckUserProp | src/module/worker/assist/notionAssist/validate.ts:46-56 | One property is recreated, reported, or left alone, as the step functions say; only the user's mapping changes. The mapping ends as the old one with each recreated property mapped to the id of the schema property of that name, the schema only grows, and the user's row is rewritten with the final mapping exactly when something was recreated. |
| Validate.NotionValidation.CheckUserProps | src/module/worker/assist/notionAssist/validate.ts:45-57 | The errors and restorations of one list are appended in list order, against the mapping read before the loop. The mapping ends as the old one with each recreated property mapped to the id of the schema property of that name, the schema only grows, and the user's row is rewritten with the final mapping exactly when something was recreated. |
| Validate.NotionValidation.CheckUserPropLists | src/module/worker/assist/notionAssist/validate.ts:45-73 | The first list is checked, then the second only when enabled. The mapping ends as the old one with each recreated property mapped to the id of the schema property of that name, the schema only grows, and the user's row is rewritten with the final mapping exactly when something was recreated. |
| Validate.NotionValidation.ValidateUserProps | src/module/worker/assist/notionAssist/validate.ts:42-74 | The required properties, then the additional ones when the user syncs them, all against the mapping as read at the start. The mapping ends as the old one with each recreated property mapped to the id of the schema property of that name, the schema only grows, and the user's row is rewritten with the final mapping exactly when something was recreated. |
| Validate.NotionValidation.CheckNotionKey | src/module/worker/assist/notionAssist/validate.ts:80-114 | One key is checked against the schema read at the start, appending its error or restoration. The mapping ends as the old one with each recreated property mapped to the id of the schema property of that name, the schema only grows, and the user's row is rewritten with the final mapping exactly when something was recreated. |
| Validate.NotionValidation.ValidateNotionProps | src/module/worker/assist/notionAssist/validate.ts:76-116 | Every key of the mapping read before the loop is checked in order against the schema read at the start of the run. The mapping ends as the old one with each recreated property mapped to the id of the schema property of that name, the schema only grows, and the user's row is rewritten with the final mapping exactly when something was recreated. |
| Validate.NotionValidation.Run | src/module/worker/assist/notionAssist/validate.ts:33-40 | The schema is read once; the errors returned are the user-property errors followed by the schema errors, and the restorations likewise. The mapping the schema check reads is the original one with the user-property restorations applied; the final mapping adds the schema check's restorations; the user's row is rewritten with it exactly when something was recreated. |
| ValidateConstants.ListedIn | src/module/worker/assist/notionAssist/validate.constant.ts:13-36 | Looking a key up in one of the three lists, entry by entry, holds exactly when the key is in the list. |
| ValidateConstants.TypeInSome | src/module/worker/assist/notionAssist/validate.constant.ts:38-61 | A type table has an entry for a key exactly when some row carries that key, and the type found is that of a row of the table. |
| ValidateConstants.PropsTypeMapKeys | src/module/worker/assist/notionAssist/validate.constant.ts:38-50 | Exactly the required and the additional properties have an expected type. |
| ValidateConstants.AddableTypeMapKeys | src/module/worker/assist/notionAssist/validate.constant.ts:52-61 | Exactly the recreatable properties have a recreation type. |
| ValidateConstants.AddableKnown | src/module/worker/assist/notionAssist/validate.constant.ts:13-36 | Every recreatable property is a required or an additional one. |
| ValidateConstants.AddableTypesAgree | src/module/worker/assist/notionAssist/validate.constant.ts:38-61 | A recreatable property is recreated with the type validation expects of it. |
| ValidateConstants.UnaddableRequired | src/module/worker/assist/notionAssist/validate.constant.ts:13-36 | Among the required properties, exactly title, calendar and date cannot be recreated. |
| ValidateConstants.AdditionalAddable | src/module/worker/assist/notionAssist/validate.constant.ts:25-36 | Every additional property can be recreated. |
| LegacyWorkers.FirstThrow | src/module/worker/index.ts:57-71 | The position found is within the plan, and the action there throws. |
| LegacyWorkers.FirstThrowSpec | src/module/worker/index.ts:57-71 | No action before the first throw throws. |
| LegacyWorkers.PageWrites | src/module/worker/index.ts:143-145 | One `CUDPage` call per updated Google event, in order. |
| LegacyWorkers.EventWrites | src/module/worker/index.ts:147-149 | One `CUDEvent` call per updated page, in order. |
| LegacyWorkers.CalendarSyncs | src/module/worker/index.ts:160-162 | One `syncNewCalendar` call per calendar, in order. |
| LegacyWorkers.Then | src/module/worker/index.ts:57-71 | Running one part and then another: a throw in the first ends the run there with its error; otherwise the second runs up to its own first throw, and the report shows the last step entered. |
| LegacyWorkers.CallsKeepStep | src/module/worker/index.ts:143-149 | Calls alone never change the step the report shows. |
| LegacyWorkers.EnterSteps | src/module/worker/index.ts:109-129 | Entering a step never throws; its calls then run up to their first throw, and the report shows the step entered. |
| LegacyWorkers.EnteredBranch | src/module/worker/index.ts:62-70 | The branch and `endSync` enter the same steps as the newer worker's branch on a window that is not empty. |
| LegacyWorkers.StepsAsPlanned | src/module/worker/index.ts:57-71 | The run enters the same steps, in the same order, as the newer worker on a window that is not empty; no step is ever skipped. |
| LegacyWorkers.EventsBeforePages | src/module/worker/index.ts:132-150 | Every updated event goes to `CUDPage` and every updated page to `CUDEvent`, nothing filtered out, and all the events come before any page. |
| LegacyWorkers.OnlyPendingSynced | src/module/worker/index.ts:153-176 | Both `syncNewCalendars` and `initAccount` call `syncNewCalendar` on exactly the run's pending calendars. |
| LegacyWorkers.StopsAtFirstThrow | src/module/worker/index.ts:57-71 | The run carries out a prefix of its plan, ends passing exactly when nothing threw, and otherwise ends with the error of its last call, the first that threw. |
| LegacyWorkers.InitConfigEndsRun | src/module/worker/index.ts:82 | When the configuration read throws, as `this.context.getInitConfig()` does in this revision, the run carries out that call alone, ends with its error and enters no step. |
| LegacyWorkers.LegacyWorker.constructor | src/module/worker/index.ts:34-44 | The context gets the start time and the reference time with seconds and milliseconds zeroed, no user, no configuration and the initial report. |
| LegacyWorkers.LegacyWorker.EnterStep | src/module/worker/index.ts:111 | Only the report's step changes, to the step entered. |
| LegacyWorkers.LegacyWorker.AskOne | src/module/worker/index.ts:112 | One call is logged, and the outcome is its throw or a pass. |
| LegacyWorkers.LegacyWorker.AskEach | src/module/worker/index.ts:143-149 | The calls run in order up to the first that throws, whose error is the outcome. |
| LegacyWorkers.LegacyWorker.EnterAndAsk | src/module/worker/index.ts:109-129 | A step entered and its calls run up to the first throw; the report shows the step entered. |
| LegacyWorkers.LegacyWorker.Init | src/module/worker/index.ts:76-104 | Without a user the debug line throws before anything happens; otherwise the calendars found are loaded with their connected and writeable subsets. |
| LegacyWorkers.LegacyWorker.StartSync | src/module/worker/index.ts:109-113 | The step entered and its user update, up to a throw. |
| LegacyWorkers.LegacyWorker.Validation | src/module/worker/index.ts:116-120 | The step entered and its validation, up to a throw. |
| LegacyWorkers.LegacyWorker.EraseDeletedEvent | src/module/worker/index.ts:123-129 | The step entered, then the page erasure and the link erasure, up to the first throw. |
| LegacyWorkers.LegacyWorker.EndSync | src/module/worker/index.ts:179-184 | The step entered, then the user update and the log clean-up, up to the first throw. |
| LegacyWorkers.LegacyWorker.WriteAll | src/module/worker/index.ts:143-149 | Every event to `CUDPage`, then every page to `CUDEvent`, up to the first throw. |
| LegacyWorkers.LegacyWorker.SyncEvents | src/module/worker/index.ts:132-150 | The step entered, both listings, then all the writes, with no filtering, up to the first throw. |
| LegacyWorkers.LegacyWorker.SyncPending | src/module/worker/index.ts:153-176 | The step entered, then `syncNewCalendar` on each pending calendar in order, up to the first throw. |
| LegacyWorkers.LegacyWorker.EraseAndSync | src/module/worker/index.ts:63-64 | The erasure, then the event sync if the erasure got through. |
| LegacyWorkers.LegacyWorker.FullSync | src/module/worker/index.ts:63-65 | Erasure, event sync and new calendars, up to the first throw. |
| LegacyWorkers.LegacyWorker.Continue | src/module/worker/index.ts:62-70 | The branch chosen by whether the user has synced before, then `endSync` if the branch got through. |
| LegacyWorkers.LegacyWorker.Prepare | src/module/worker/index.ts:58-60 | `init`, `startSync` and `validation`, up to the first throw, with the calendars found loaded. |
| LegacyWorkers.LegacyWorker.RunSteps | src/module/worker/index.ts:57-71 | Without a user the first debug line throws and nothing is logged; otherwise the steps run in the planned order, with no shortcut for an empty window, up to the first throw. |
| LegacyWorkers.LegacyWorker.Run | src/module/worker/index.ts:46-55 | The user row is read into the context; without one the filter throws reading its id. Otherwise the caught outcome is the timeout or the steps' ending; the report is returned unless the filter's own user write fails; a failure unlocks the user and sets the fail flag, and a sync error's code becomes the fail reason. The report shows the last step entered; when the configuration read throws and the deadline has not passed, only that call is made and the report comes back failed at the step it started in. |

## Left out

- The runner and the bot (`src/module/runner/*`, `src/module/bot/*`): parallel loops, the set of claimed users, the stop flag, sleeps and the push of results over HTTP. They are concurrency and I/O.
- The retry, pacing and timeout decorators (both `api.decorator.ts` files and `src/utils/timeout.decorator.ts`): retries, sleeps and wall-clock timing. Only their error classification is modelled. The deadline is the boolean `timedOut` passed to the workers' `Run`.
- Both API decorators call the wrapped method with `method.bind(this, args)`, so the method receives the argument array as its first parameter. Modelling that literally would make every API call fail. The model passes the arguments as the API methods declare them.
- The Notion SDK, googleapis with OAuth2, and TypeORM are not modelled. Their answers are the fields of a fixed `Remote` value. The tables are the fields of a `Store`. Write requests are appended to a log in the store.
- `fetchAll` pagination: each listing is one answer of `Remote` holding every page of results.
- Remote calls other than the event listing and the two deletions always answer. The error path of the other calls is covered by the error filters alone.
- The query filters sent to Notion and Google (edited-time and calendar filters) are not modelled. Only the filtering the code does after the answer is.
- dayjs and time zones: ISO formatting, day formatting and UTC normalisation are the uninterpreted functions of `DateLib`. The current time is a parameter.
- The elapsed-seconds field of the summary line is a float computed from the clock. It is passed in as a ready-made string.
- JSON parsing of the user's `notionProps`: the mapping is an association list in key order, and `parsedNotionProps` is read as the parse of the stored string.
- Logging (`workerLogger`, `debugLog`, `console`) is not modelled. The only exception is the debug line that throws when the user is missing.
- `syncErrorFilter` and `unknownErrorFilter` (in `syncException.ts`) are not part of this model. Whatever they do or throw is swallowed by the exception filter.
- The detail of a sync error built inside a rule callback is reduced to the rule's description text.
- `moveEventCalendar`, `getPages`, `getProp` and `getDatabase` of the Notion API wrapper are not modelled, nor `updatePageAfterCreateGCalEvent` of the Notion assist. No step calls them. `getDatabase` answers with the store's schema.
- The older Google Calendar record's `merge`, `toEvent` and `toGoogleCalendarEvent` (`src/dto/GoogleCalendarEvent/GoogleCalendarEvent.dto.ts:119-126`) have empty bodies and return `undefined`. They are not modelled.
- `googleCalendarAssist.updateEventAfterNotionPageCreate` and `notionAssist.addPage` do not exist in the assists. Calling them throws a `TypeError`, which is modelled as a failure with that message. What they were meant to write is not modelled.
- The older worker in `src/module/worker/index.ts` cannot run in this revision. Its `init` calls `this.context.getInitConfig()` (index.ts:82), but `getInitConfig` is a module-level function of `work.context.ts` (line 13), not a method of the context, so every run with a user throws a TypeError there. Its `validation` calls `validationAndRestore` on the worker assist (index.ts:119), which does not define it. Its collaborators are therefore recorded as calls in a log, each answering pass or throw, and not run against the store; `LegacyWorkers.InitConfigEndsRun` and `LegacyWorker.Run` state how a run ends when the configuration read throws.
- FullSync: states the order of its steps and that the verdict is kept, not the store it leaves. The store effect of each step is stated by `EraseDeletedEvent`, `SyncEvents` and, one calendar at a time, `Connect`, but not composed across steps, because no run gets past `init` (`Workers.InitFailure`).
- SyncAndConnect: the same; the store after both steps is not composed.
- AfterInit: the same for the steps after `init`, which no run reaches.
- The assists' construction and wiring are modelled only for how they fail (`Workers.InitFailure`). The assists themselves are modules of methods over the context and the store.
- The test harness, the CLI, `src/main.ts`, `src/modules/googleCalendar/googleCalendar.api.service.ts` and the type-only declarations are not modelled.
