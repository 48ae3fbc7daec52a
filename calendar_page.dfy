/** The calendar page: converting Google events for FullCalendar, the "same duration"
    rescheduling arithmetic, and the signed-in and confirmation guards of the handlers
    that list, update and delete events. Times are integer milliseconds since the epoch;
    parsing and printing ISO dates is not modelled. */
module CalendarPage {
  import opened Wrappers
  import opened Strings
  import opened GoogleCalendarService
  import UiSlice

  /** `{ dateTime?, date? }` of a Google event. */
  datatype EventTime = EventTime(dateTime: Option<string>, date: Option<string>)

  datatype CalendarEvent = CalendarEvent(id: string, summary: string, start: Option<EventTime>,
                                         end: Option<EventTime>, location: Option<string>)

  /** The FullCalendar event; `originalEvent` is `extendedProps.originalEvent`. */
  datatype FullCalendarEvent = FullCalendarEvent(id: string, title: string, start: string, end: string,
                                                 allDay: bool, location: Option<string>,
                                                 originalEvent: CalendarEvent)

  /** `t?.dateTime` */
  function DateTimeOf(t: Option<EventTime>): Option<string> {
    if t.Some? then t.value.dateTime else None
  }

  /** `t?.date` */
  function DateOf(t: Option<EventTime>): Option<string> {
    if t.Some? then t.value.date else None
  }

  /** `t?.dateTime || t?.date || ''` */
  function TimeText(t: Option<EventTime>): (r: string)
    ensures Truthy(DateTimeOf(t)) ==> r == DateTimeOf(t).value
    ensures !Truthy(DateTimeOf(t)) && Truthy(DateOf(t)) ==> r == DateOf(t).value
    ensures !Truthy(DateTimeOf(t)) && !Truthy(DateOf(t)) ==> r == ""
  {
    if Truthy(DateTimeOf(t)) then DateTimeOf(t).value
    else if Truthy(DateOf(t)) then DateOf(t).value
    else ""
  }

  function ConvertEvent(e: CalendarEvent): FullCalendarEvent {
    FullCalendarEvent(e.id, e.summary, TimeText(e.start), TimeText(e.end),
                      !Truthy(DateTimeOf(e.start)), e.location, e)
  }

  /** `convertToFullCalendarEvents` */
  function ConvertToFullCalendarEvents(events: seq<CalendarEvent>): (r: seq<FullCalendarEvent>)
    ensures |r| == |events|
    ensures forall i :: 0 <= i < |r| ==>
      && r[i].id == events[i].id && r[i].title == events[i].summary
      && r[i].start == TimeText(events[i].start) && r[i].end == TimeText(events[i].end)
      && (r[i].allDay <==> !Truthy(DateTimeOf(events[i].start)))
      && r[i].location == events[i].location
      && r[i].originalEvent == events[i]
  {
    seq(|events|, i requires 0 <= i < |events| => ConvertEvent(events[i]))
  }

  /** What a click on each converted event hands to the edit dialog. */
  function OriginalEvents(fc: seq<FullCalendarEvent>): (r: seq<CalendarEvent>)
    ensures |r| == |fc|
    ensures forall i :: 0 <= i < |fc| ==> r[i] == fc[i].originalEvent
  {
    if fc == [] then [] else [fc[0].originalEvent] + OriginalEvents(fc[1..])
  }

  /** The conversion loses nothing: the original events come back, in order. */
  lemma {:induction false} ConversionRoundTrip(events: seq<CalendarEvent>)
    ensures OriginalEvents(ConvertToFullCalendarEvents(events)) == events
  {
    if events != [] {
      var fc := ConvertToFullCalendarEvents(events);
      assert fc[1..] == ConvertToFullCalendarEvents(events[1..]);
      ConversionRoundTrip(events[1..]);
      assert events == [events[0]] + events[1..];
    }
  }

  /** A timed event (one whose start has a dateTime) is shown at that dateTime; an
      all-day event shows its date, or nothing. */
  lemma ConvertedStart(e: CalendarEvent)
    ensures !ConvertEvent(e).allDay ==> ConvertEvent(e).start == DateTimeOf(e.start).value
    ensures ConvertEvent(e).allDay ==> ConvertEvent(e).start == (if Truthy(DateOf(e.start)) then DateOf(e.start).value else "")
  {
  }

  const OneHourMs := 60 * 60 * 1000

  /** Both the start and the end of the edited event carry a dateTime. */
  predicate HasTimedRange(original: Option<CalendarEvent>) {
    original.Some? && Truthy(DateTimeOf(original.value.start)) && Truthy(DateTimeOf(original.value.end))
  }

  /** The end time `handleUpdateReminder` sends. `parseMs` is `new Date(s).getTime()`. */
  function RescheduledEndMs(newStartMs: int, original: Option<CalendarEvent>, parseMs: string -> int): (r: int)
    ensures HasTimedRange(original) ==>
      r - newStartMs == parseMs(DateTimeOf(original.value.end).value) - parseMs(DateTimeOf(original.value.start).value)
    ensures !HasTimedRange(original) ==> r == newStartMs + OneHourMs
  {
    if HasTimedRange(original) then
      var duration := parseMs(DateTimeOf(original.value.end).value) - parseMs(DateTimeOf(original.value.start).value);
      newStartMs + duration
    else newStartMs + OneHourMs
  }

  /** Moving an event keeps its length: shifting the start by `d` shifts the end by `d`. */
  lemma RescheduleShiftsEnd(newStartMs: int, d: int, original: Option<CalendarEvent>, parseMs: string -> int)
    ensures RescheduledEndMs(newStartMs + d, original, parseMs) == RescheduledEndMs(newStartMs, original, parseMs) + d
  {
  }

  /** A call the page makes into the calendar service. */
  datatype ServiceCall =
    | ListEvents
    | UpdateEvent(id: string, summary: string, location: Option<string>, startMs: int, endMs: int)
    | DeleteEvent(id: string)

  /** A `showSnackbar` the page dispatches. */
  datatype Toast = Toast(message: string, severity: UiSlice.Severity)

  const UpdateNeedsSignInMessage := "請先登入 Google 以更新提醒。"
  const DeleteNeedsSignInMessage := "請先登入 Google 以刪除提醒。"
  const UpdatedMessage := "日曆提醒已成功更新！"
  const DeletedMessage := "日曆提醒已成功刪除！"

  /** `error.message || '未知錯誤'` after the given prefix. */
  function FailureText(prefix: string, message: string): string {
    prefix + (if message != "" then message else "未知錯誤")
  }

  class CalendarView {
    var events: seq<CalendarEvent>
    var isLoading: bool
    var eventsError: Option<string>
    var eventToEdit: Option<CalendarEvent>
    var editDialogOpen: bool
    /** Every call into the calendar service, in order. */
    ghost var calls: seq<ServiceCall>
    /** Every snackbar dispatched, in order. */
    ghost var toasts: seq<Toast>

    constructor ()
      ensures events == [] && isLoading && eventsError == None
      ensures eventToEdit == None && !editDialogOpen
      ensures calls == [] && toasts == []
    {
      events, isLoading, eventsError := [], true, None;
      eventToEdit, editDialogOpen := None, false;
      calls, toasts := [], [];
    }

    /** `fetchEvents`: signed out, the list is emptied without calling the service;
        signed in, it shows what `listCalendarEvents` returns (which never throws). */
    method FetchEvents(token: Option<string>, reply: HttpReply<Option<seq<CalendarEvent>>>)
      modifies this`events, this`isLoading, this`eventsError, this`calls
      ensures !isLoading
      ensures !Truthy(token) ==> events == [] && eventsError == old(eventsError) && calls == old(calls)
      ensures Truthy(token) ==>
        && events == ListCalendarEvents(token, reply) && eventsError == None
        && calls == old(calls) + [ListEvents]
    {
      if !Truthy(token) {
        events := [];
        isLoading := false;
        return;
      }
      isLoading := true;
      eventsError := None;
      calls := calls + [ListEvents];
      events := ListCalendarEvents(token, reply);
      isLoading := false;
    }

    /** `handleOpenEditDialog` */
    method OpenEditDialog(e: CalendarEvent)
      modifies this`eventToEdit, this`editDialogOpen
      ensures eventToEdit == Some(e) && editDialogOpen
    {
      eventToEdit := Some(e);
      editDialogOpen := true;
    }

    /** `handleCloseEditDialog` */
    method CloseEditDialog()
      modifies this`eventToEdit, this`editDialogOpen
      ensures eventToEdit == None && !editDialogOpen
    {
      editDialogOpen := false;
      eventToEdit := None;
    }

    /** `handleUpdateReminder`: refused with a warning when signed out; otherwise the event
        is moved to `newStartMs`, keeping the edited event's duration, and the list is
        fetched again on success. */
    method HandleUpdateReminder(token: Option<string>, eventId: string, summary: string,
                                location: Option<string>, newStartMs: int, parseMs: string -> int,
                                reply: HttpReply<CalendarEvent>,
                                refetch: HttpReply<Option<seq<CalendarEvent>>>)
      modifies this`events, this`isLoading, this`eventsError, this`calls, this`toasts
      ensures !Truthy(token) ==>
        && calls == old(calls) && toasts == old(toasts) + [Toast(UpdateNeedsSignInMessage, UiSlice.Warning)]
        && events == old(events) && isLoading == old(isLoading) && eventsError == old(eventsError)
      ensures Truthy(token) ==>
        var sent := UpdateEvent(eventId, summary, location, newStartMs,
                                RescheduledEndMs(newStartMs, old(eventToEdit), parseMs));
        var result := UpdateCalendarEvent(token, eventId, reply);
        && |calls| >= |old(calls)| + 1 && calls[..|old(calls)| + 1] == old(calls) + [sent]
        && (result.Success? ==>
              && toasts == old(toasts) + [Toast(UpdatedMessage, UiSlice.Severity.Success)]
              && calls == old(calls) + [sent, ListEvents] && events == ListCalendarEvents(token, refetch)
              && !isLoading && eventsError == None)
        && (result.Failure? ==>
              && toasts == old(toasts) + [Toast(FailureText("更新提醒失敗: ", result.error), UiSlice.Severity.Error)]
              && calls == old(calls) + [sent] && events == old(events)
              && isLoading == old(isLoading) && eventsError == old(eventsError))
    {
      if !Truthy(token) {
        toasts := toasts + [Toast(UpdateNeedsSignInMessage, UiSlice.Warning)];
        return;
      }
      var endMs := RescheduledEndMs(newStartMs, eventToEdit, parseMs);
      calls := calls + [UpdateEvent(eventId, summary, location, newStartMs, endMs)];
      var result := UpdateCalendarEvent(token, eventId, reply);
      if result.Success? {
        toasts := toasts + [Toast(UpdatedMessage, UiSlice.Severity.Success)];
        FetchEvents(token, refetch);
      } else {
        toasts := toasts + [Toast(FailureText("更新提醒失敗: ", result.error), UiSlice.Severity.Error)];
      }
    }

    /** `handleDeleteReminder`: refused with a warning when signed out; the service is
        called only after the user confirms. */
    method HandleDeleteReminder(token: Option<string>, eventId: string, confirmed: bool,
                                reply: HttpReply<()>, refetch: HttpReply<Option<seq<CalendarEvent>>>)
      modifies this`events, this`isLoading, this`eventsError, this`calls, this`toasts
      ensures !Truthy(token) ==>
        && calls == old(calls) && toasts == old(toasts) + [Toast(DeleteNeedsSignInMessage, UiSlice.Warning)]
        && events == old(events) && isLoading == old(isLoading) && eventsError == old(eventsError)
      ensures Truthy(token) && !confirmed ==>
        && calls == old(calls) && toasts == old(toasts) && events == old(events)
        && isLoading == old(isLoading) && eventsError == old(eventsError)
      ensures Truthy(token) && confirmed ==>
        var result := DeleteCalendarEvent(token, eventId, reply);
        && (result.Success? ==>
              && toasts == old(toasts) + [Toast(DeletedMessage, UiSlice.Severity.Success)]
              && calls == old(calls) + [DeleteEvent(eventId), ListEvents] && events == ListCalendarEvents(token, refetch)
              && !isLoading && eventsError == None)
        && (result.Failure? ==>
              && toasts == old(toasts) + [Toast(FailureText("刪除提醒失敗: ", result.error), UiSlice.Severity.Error)]
              && calls == old(calls) + [DeleteEvent(eventId)] && events == old(events)
              && isLoading == old(isLoading) && eventsError == old(eventsError))
    {
      if !Truthy(token) {
        toasts := toasts + [Toast(DeleteNeedsSignInMessage, UiSlice.Warning)];
        return;
      }
      if confirmed {
        calls := calls + [DeleteEvent(eventId)];
        var result := DeleteCalendarEvent(token, eventId, reply);
        if result.Success? {
          toasts := toasts + [Toast(DeletedMessage, UiSlice.Severity.Success)];
          FetchEvents(token, refetch);
        } else {
          toasts := toasts + [Toast(FailureText("刪除提醒失敗: ", result.error), UiSlice.Severity.Error)];
        }
      }
    }
  }
}
