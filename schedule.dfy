/**
 * The weekly schedule (src/pages/GymSchedule.jsx): an in-memory list of events that
 * the add/edit modal appends to or rewrites, a delete by id, the events shown in one
 * grid cell, and the hour labels down the side of the grid.
 */
module GymSchedule {
  import opened Wrappers
  import opened Numbers
  import opened ListView

  /**
   * An event's `day`: the number a grid cell passes to `openAddModal`, or the text
   * the day `<select>` stores (`''` until a day is picked, then `'0'` to `'6'`).
   */
  datatype DayValue = DayNum(n: nat) | DayText(text: string)

  /** `parseInt(day)`; `None` stands for `NaN`. */
  function ParseDay(d: DayValue): (r: Option<nat>)
    ensures d.DayNum? ==> r == Some(d.n)
    ensures d == DayText("") ==> r == None
  {
    match d
    case DayNum(n) => Some(n)
    case DayText(t) => ParseIntPrefix(t)
  }

  datatype Event = Event(
    id: nat, title: string, client: string, day: DayValue, time: string,
    duration: string, kind: string, color: string)

  /** `newEvent`: the modal's fields; `id` is there only when the modal was opened on an event. */
  datatype EventForm = EventForm(
    id: Option<nat>, title: string, client: string, day: DayValue, time: string,
    duration: string, kind: string)

  const MockEvents: seq<Event> := [
    Event(1, "Morning HIIT", "Group Class", DayNum(1), "6:00 AM", "45 min", "class", "from-red-500 to-red-600"),
    Event(2, "Yoga & Mobility", "Lisa Wong", DayNum(2), "7:30 AM", "60 min", "session", "from-purple-500 to-violet-600"),
    Event(3, "Strength Bootcamp", "Mike Chen", DayNum(4), "6:00 PM", "60 min", "class", "from-blue-500 to-indigo-600"),
    Event(4, "Available", "Open Slot", DayNum(0), "10:00 AM", "60 min", "availability", "from-gray-400 to-gray-600")
  ]

  const EmptyForm: EventForm := EventForm(None, "", "", DayText(""), "", "60 min", "session")

  /** The save guard: a title, a time and a picked day. */
  predicate Complete(f: EventForm) {
    f.title != "" && f.time != "" && f.day != DayText("")
  }

  /** The gradient an added event gets from its type. */
  function ColorFor(kind: string): (c: string)
    ensures kind == "session" ==> c == "from-emerald-500 to-teal-600"
    ensures kind == "class" ==> c == "from-blue-500 to-indigo-600"
    ensures kind != "session" && kind != "class" ==> c == "from-gray-400 to-gray-600"
  {
    if kind == "session" then "from-emerald-500 to-teal-600"
    else if kind == "class" then "from-blue-500 to-indigo-600"
    else "from-gray-400 to-gray-600"
  }

  /** `Math.max(...events.map(e => e.id), 0)`. */
  function MaxId(events: seq<Event>): (m: nat)
    ensures forall e :: e in events ==> e.id <= m
    ensures m == 0 || exists k :: 0 <= k < |events| && events[k].id == m
  {
    if events == [] then 0
    else
      var rest := MaxId(events[1..]);
      assert forall e :: e in events ==> e == events[0] || e in events[1..];
      if events[0].id >= rest then events[0].id
      else (assert events[1..][0] == events[1]; rest)
  }

  /** The id an added event gets: one more than every id in use, 1 for an empty schedule. */
  function NextId(events: seq<Event>): (n: nat)
    ensures n >= 1 && forall e :: e in events ==> e.id < n
    ensures events == [] ==> n == 1
  {
    MaxId(events) + 1
  }

  /** `{ ...newEvent, id: newId, color }`. */
  function NewEvent(f: EventForm, id: nat): Event {
    Event(id, f.title, f.client, f.day, f.time, f.duration, f.kind, ColorFor(f.kind))
  }

  /** `{ ...e, ...newEvent }`: the form's fields over the event's; the colour stays. */
  function Merge(e: Event, f: EventForm): (r: Event)
    ensures r.color == e.color
    ensures r.title == f.title && r.client == f.client && r.day == f.day
    ensures r.time == f.time && r.duration == f.duration && r.kind == f.kind
    ensures r.id == (if f.id.Some? then f.id.value else e.id)
  {
    Event(if f.id.Some? then f.id.value else e.id, f.title, f.client, f.day, f.time, f.duration, f.kind, e.color)
  }

  /** The edit path: every event with the selected id merged with the form, the rest as they were. */
  function EditById(events: seq<Event>, id: nat, f: EventForm): (r: seq<Event>)
    ensures |r| == |events|
    ensures forall k :: 0 <= k < |events| ==> r[k] == if events[k].id == id then Merge(events[k], f) else events[k]
  {
    seq(|events|, k requires 0 <= k < |events| => if events[k].id == id then Merge(events[k], f) else events[k])
  }

  function IdIsNot(id: nat): Event -> bool {
    (e: Event) => e.id != id
  }

  /** `events.filter(e => e.id !== id)`: every event with that id goes, the others stay in order. */
  function RemoveId(events: seq<Event>, id: nat): (r: seq<Event>)
    ensures forall e :: e in r <==> e in events && e.id != id
    ensures forall e :: multiset(r)[e] == if e.id != id then multiset(events)[e] else 0
    ensures IsSubsequence(r, events)
  {
    FilterContents(events, IdIsNot(id));
    FilterIsSubsequence(events, IdIsNot(id));
    Filter(events, IdIsNot(id))
  }

  /** Deleting the event just added gives the schedule back. */
  lemma RemoveAdded(events: seq<Event>, f: EventForm)
    ensures RemoveId(events + [NewEvent(f, NextId(events))], NextId(events)) == events
  {
    var id := NextId(events);
    FilterConcat(events, [NewEvent(f, id)], IdIsNot(id));
    FilterAll(events, IdIsNot(id));
    assert [NewEvent(f, id)][1..] == [];
  }

  /** Deleting an id no event has changes nothing. */
  lemma RemoveMissing(events: seq<Event>, id: nat)
    requires forall e :: e in events ==> e.id != id
    ensures RemoveId(events, id) == events
  {
    FilterAll(events, IdIsNot(id));
  }

  /** The test of `renderEventCell`: `parseInt(e.day) === dayIndex && e.time === time`. */
  function InCell(dayIndex: nat, time: string): Event -> bool {
    (e: Event) => ParseDay(e.day) == Some(dayIndex) && e.time == time
  }

  /** The events a grid cell shows, in schedule order. */
  function CellEvents(events: seq<Event>, dayIndex: nat, time: string): (r: seq<Event>)
    ensures forall e :: e in r <==> e in events && ParseDay(e.day) == Some(dayIndex) && e.time == time
  {
    FilterContents(events, InCell(dayIndex, time));
    Filter(events, InCell(dayIndex, time))
  }

  /** An event added from a cell appears last in that cell and in no other. */
  lemma AddedEventInCell(events: seq<Event>, f: EventForm, dayIndex: nat, time: string)
    requires ParseDay(f.day) == Some(dayIndex) && f.time == time
    ensures var e := NewEvent(f, NextId(events));
      CellEvents(events + [e], dayIndex, time) == CellEvents(events, dayIndex, time) + [e]
  {
    var e := NewEvent(f, NextId(events));
    FilterConcat(events, [e], InCell(dayIndex, time));
    assert [e][1..] == [];
  }

  /** A clock label: the hour, `:00`, and `AM` or `PM`. */
  function ClockLabel(h: nat, pm: bool): string {
    NatToDecimal(h) + ":00 " + (if pm then "PM" else "AM")
  }

  /** `hours[i]`: `${i % 12 || 12}:00 ${i < 12 ? 'AM' : 'PM'}`. */
  function HourLabel(i: nat): string
    requires i < 24
  {
    ClockLabel(if i % 12 == 0 then 12 else i % 12, i >= 12)
  }

  /** The 24 labels of `hours`. */
  function Hours(): (h: seq<string>)
    ensures |h| == 24 && forall i :: 0 <= i < 24 ==> h[i] == HourLabel(i)
  {
    seq(24, i requires 0 <= i < 24 => HourLabel(i))
  }

  /** The hour of the day a label names: its leading number, `12` read as 0, plus 12 after noon. */
  function LabelHour(text: string): Option<nat> {
    match ParseIntPrefix(text)
    case None => None
    case Some(h) =>
      var after := text[LeadingDigits(text)..];
      if after == ":00 AM" then Some(h % 12)
      else if after == ":00 PM" then Some(h % 12 + 12)
      else None
  }

  /** A printed hour followed by `:00 AM` or `:00 PM` reads back as that hour of the clock. */
  lemma ReadLabel(h: nat, pm: bool)
    ensures LabelHour(ClockLabel(h, pm)) == Some(h % 12 + (if pm then 12 else 0))
  {
    var d := NatToDecimal(h);
    var rest := if pm then ":00 PM" else ":00 AM";
    assert ClockLabel(h, pm) == d + rest;
    ParseIntOfDecimal(h, rest);
    LeadingDigitsOfDigits(d, rest);
    assert (d + rest)[|d|..] == rest;
  }

  /** Reading a label back gives its hour: no two of the 24 labels are alike. */
  lemma HourLabelRoundTrip(i: nat)
    requires i < 24
    ensures LabelHour(HourLabel(i)) == Some(i)
  {
    var h := if i % 12 == 0 then 12 else i % 12;
    ReadLabel(h, i >= 12);
    assert h % 12 + (if i >= 12 then 12 else 0) == i;
  }

  lemma HourLabelsDistinct(i: nat, j: nat)
    requires i < 24 && j < 24 && i != j
    ensures HourLabel(i) != HourLabel(j)
  {
    HourLabelRoundTrip(i);
    HourLabelRoundTrip(j);
  }

  /** `hours.slice(6, 22)`: the grid rows run from `6:00 AM` to `9:00 PM`. */
  lemma GridRows()
    ensures |Hours()[6..22]| == 16
    ensures Hours()[6..22][0] == "6:00 AM" && Hours()[6..22][15] == "9:00 PM"
    ensures forall k :: 0 <= k < 16 ==> LabelHour(Hours()[6..22][k]) == Some(k + 6)
  {
    var rows := Hours()[6..22];
    assert rows[0] == "6:00 AM" by {
      assert rows[0] == ClockLabel(6, false);
      assert NatToDecimal(6) == "6";
    }
    assert rows[15] == "9:00 PM" by {
      assert rows[15] == ClockLabel(9, true);
      assert NatToDecimal(9) == "9";
    }
    forall k | 0 <= k < 16 ensures LabelHour(Hours()[6..22][k]) == Some(k + 6) {
      HourLabelRoundTrip(k + 6);
    }
  }

  /** The page's schedule state. */
  class Schedule {
    var events: seq<Event>
    var form: EventForm
    var isEditing: bool
    var selected: Option<Event>
    var showModal: bool

    constructor ()
      ensures events == MockEvents && form == EmptyForm
      ensures !isEditing && selected == None && !showModal
    {
      events := MockEvents;
      form := EmptyForm;
      isEditing := false;
      selected := None;
      showModal := false;
    }

    /**
     * `openAddModal(dayIndex, time)`: a blank form in add mode. A grid cell passes its day
     * number and hour; the "Add Session" button passes `''` for both (`DayText("")`, `""`).
     */
    method OpenAddModal(day: DayValue, time: string)
      modifies this
      ensures form == EventForm(None, "", "", day, time, "60 min", "session")
      ensures !isEditing && selected == None && showModal
      ensures events == old(events)
    {
      form := EventForm(None, "", "", day, time, "60 min", "session");
      isEditing := false;
      selected := None;
      showModal := true;
    }

    /** `openEditModal(event)`: the form filled from the event, edit mode. */
    method OpenEditModal(e: Event)
      modifies this
      ensures form == EventForm(Some(e.id), e.title, e.client, e.day, e.time, e.duration, e.kind)
      ensures isEditing && selected == Some(e) && showModal
      ensures events == old(events)
    {
      form := EventForm(Some(e.id), e.title, e.client, e.day, e.time, e.duration, e.kind);
      isEditing := true;
      selected := Some(e);
      showModal := true;
    }

    /** `handleEventChange`: the named field of the form takes the input's text. */
    method ChangeField(name: string, value: string)
      modifies this`form
      ensures form == SetField(old(form), name, value)
    {
      form := SetField(form, name, value);
    }

    /**
     * `handleSaveEvent`. An incomplete form changes nothing. In edit mode the events with
     * the selected id are merged with the form; otherwise the form is appended as a new
     * event with a fresh id. Either way the modal closes.
     */
    method SaveEvent() returns (saved: bool)
      modifies this`events, this`showModal
      ensures saved == Complete(old(form))
      ensures !saved ==> events == old(events) && showModal == old(showModal)
      ensures saved && isEditing && selected.Some? ==> events == EditById(old(events), selected.value.id, form)
      ensures saved && !(isEditing && selected.Some?) ==> events == old(events) + [NewEvent(form, NextId(old(events)))]
      ensures saved ==> !showModal
    {
      if !Complete(form) {
        return false;
      }
      if isEditing && selected.Some? {
        events := EditById(events, selected.value.id, form);
      } else {
        events := events + [NewEvent(form, NextId(events))];
      }
      showModal := false;
      return true;
    }

    /** The modal's "Cancel" button: the modal closes and nothing else changes. */
    method CloseModal()
      modifies this`showModal
      ensures !showModal
    {
      showModal := false;
    }

    /** `deleteEvent(id)`: every event with that id goes; the modal closes and nothing stays selected. */
    method DeleteEvent(id: nat)
      modifies this`events, this`showModal, this`selected
      ensures events == RemoveId(old(events), id)
      ensures !showModal && selected == None
    {
      events := RemoveId(events, id);
      showModal := false;
      selected := None;
    }
  }

  /** `{ ...newEvent, [name]: value }` for the modal's inputs; the day `<select>` stores text. */
  function SetField(f: EventForm, name: string, value: string): (r: EventForm)
    ensures name == "title" ==> r == f.(title := value)
    ensures name == "client" ==> r == f.(client := value)
    ensures name == "day" ==> r == f.(day := DayText(value))
    ensures name == "time" ==> r == f.(time := value)
    ensures name == "duration" ==> r == f.(duration := value)
    ensures name == "type" ==> r == f.(kind := value)
    ensures name !in {"title", "client", "day", "time", "duration", "type"} ==> r == f
  {
    match name
    case "title" => f.(title := value)
    case "client" => f.(client := value)
    case "day" => f.(day := DayText(value))
    case "time" => f.(time := value)
    case "duration" => f.(duration := value)
    case "type" => f.(kind := value)
    case _ => f
  }
}
