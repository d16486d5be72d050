/**
 * The calendar page's popups and side panel, static/js/ui.js: the width
 * clamp of the resizable booking panel, the placement of a popup inside the
 * viewport, the event time text, the staff lookup, the dispatch between the
 * time-off and booking popups, and the booking popup's status buttons.
 * `toLocaleDateString` is a parameter (the date strings), pixel positions
 * are integers and the panel's widths are exact reals.
 */
module UI {
  import opened Wrappers
  import opened Strings
  import Utils

  // ---------------------------------------------------------------- resizable panel

  const MinPanelWidth: real := 320.0

  /** `Math.max(320, Math.min(0.9 * innerWidth, startWidth + startX - clientX))`. */
  function ConstrainedWidth(startWidth: real, startX: real, clientX: real, innerWidth: real): (r: real)
    ensures r >= MinPanelWidth
    ensures r > MinPanelWidth ==> r <= 0.9 * innerWidth
    ensures r > MinPanelWidth && r < 0.9 * innerWidth ==> r == startWidth + startX - clientX
    ensures MinPanelWidth <= startWidth + startX - clientX <= 0.9 * innerWidth ==> r == startWidth + startX - clientX
  {
    var newWidth := startWidth + startX - clientX;
    var maxWidth := 0.9 * innerWidth;
    var capped := if maxWidth < newWidth then maxWidth else newWidth;
    if MinPanelWidth < capped then capped else MinPanelWidth
  }

  /** The state `initResizablePanel` keeps in its closure, and the panel's width. */
  class ResizablePanel {
    var isResizing: bool
    var startX: real
    var startWidth: real
    var width: real

    constructor (width0: real)
      ensures !isResizing && startX == 0.0 && startWidth == 0.0 && width == width0
    {
      isResizing := false;
      startX := 0.0;
      startWidth := 0.0;
      width := width0;
    }

    /** `startResize`: a mouse-down or touch-start on the handle remembers where the drag began. */
    method StartResize(clientX: real, offsetWidth: real)
      modifies this
      ensures isResizing && startX == clientX && startWidth == offsetWidth && width == old(width)
    {
      isResizing := true;
      startX := clientX;
      startWidth := offsetWidth;
    }

    /** `resize`: nothing unless a drag is on; otherwise the clamped width. */
    method Resize(clientX: real, innerWidth: real)
      modifies this
      ensures isResizing == old(isResizing) && startX == old(startX) && startWidth == old(startWidth)
      ensures !isResizing ==> width == old(width)
      ensures isResizing ==> width == ConstrainedWidth(startWidth, startX, clientX, innerWidth) && width >= MinPanelWidth
    {
      if !isResizing {
        return;
      }
      width := ConstrainedWidth(startWidth, startX, clientX, innerWidth);
    }

    /** `stopResize`: the drag ends; the width stays. */
    method StopResize()
      modifies this
      ensures !isResizing && startX == old(startX) && startWidth == old(startWidth) && width == old(width)
    {
      isResizing := false;
    }
  }

  // ---------------------------------------------------------------- popup placement

  const PopupWidth := 300

  /** The popup's height: `offsetHeight || 200`. */
  function PopupHeight(offsetHeight: int): int
  {
    if offsetHeight != 0 then offsetHeight else 200
  }

  /**
   * `positionPopup`: 10 px right of and below the click, moved to the
   * click's left or up from the bottom edge when it would overflow, and
   * never closer than 10 px to the left or top edge after such a move.
   */
  function PositionPopup(x: int, y: int, viewportWidth: int, viewportHeight: int, offsetHeight: int): (r: (int, int))
    ensures x + 10 + PopupWidth <= viewportWidth ==> r.0 == x + 10
    ensures x + 10 + PopupWidth > viewportWidth ==> r.0 >= 10 && (r.0 <= x - 10 - PopupWidth || r.0 == 10)
    ensures x <= viewportWidth + 10 && viewportWidth >= PopupWidth + 10 ==> r.0 + PopupWidth <= viewportWidth
    ensures y + 10 + PopupHeight(offsetHeight) <= viewportHeight ==> r.1 == y + 10
    ensures y + 10 + PopupHeight(offsetHeight) > viewportHeight ==> r.1 >= 10
    ensures viewportHeight >= PopupHeight(offsetHeight) + 20 ==> r.1 + PopupHeight(offsetHeight) <= viewportHeight
    ensures x >= 0 ==> r.0 >= 10
    ensures y >= 0 ==> r.1 >= 10
  {
    var left := if x + 10 + PopupWidth > viewportWidth then Max(10, x - PopupWidth - 10) else x + 10;
    var h := PopupHeight(offsetHeight);
    var top := if y + 10 + h > viewportHeight then Max(10, viewportHeight - h - 10) else y + 10;
    (left, top)
  }

  function Max(a: int, b: int): int
  {
    if a < b then b else a
  }

  // ---------------------------------------------------------------- event text

  /**
   * `formatEventDateTime`: "date, start - end" when both ends fall on the
   * same local date, else "From date start to date end".
   */
  function FormatEventDateTime(startDate: string, startHours: int, startMinutes: int,
                               endDate: string, endHours: int, endMinutes: int): (r: string)
    ensures EndsWith(r, Utils.FormatTime(endHours, endMinutes))
    ensures startDate == endDate ==>
      r == startDate + ", " + Utils.FormatTime(startHours, startMinutes) + " - " + Utils.FormatTime(endHours, endMinutes)
    ensures startDate != endDate ==>
      r == "From " + startDate + " " + Utils.FormatTime(startHours, startMinutes) + " to " + endDate + " " +
        Utils.FormatTime(endHours, endMinutes)
  {
    var startTime := Utils.FormatTime(startHours, startMinutes);
    var endTime := Utils.FormatTime(endHours, endMinutes);
    var head := if startDate == endDate then startDate + ", " + startTime + " - "
      else "From " + startDate + " " + startTime + " to " + endDate + " ";
    ConcatEnds(head, endTime);
    head + endTime
  }

  /** The multi-day form is recognisable: the text begins with "From " exactly when the dates differ. */
  lemma FormatEventDateTimeMultiDay(startDate: string, startHours: int, startMinutes: int,
                                    endDate: string, endHours: int, endMinutes: int)
    requires !StartsWith(startDate, "From ")
    ensures StartsWith(FormatEventDateTime(startDate, startHours, startMinutes, endDate, endHours, endMinutes), "From ")
      <==> startDate != endDate
  {
    var st, et := Utils.FormatTime(startHours, startMinutes), Utils.FormatTime(endHours, endMinutes);
    if startDate == endDate {
      SameDayText(startDate, st, et);
    } else {
      MultiDayText(startDate, st, endDate, et);
    }
  }

  lemma SameDayText(date: string, st: string, et: string)
    requires !StartsWith(date, "From ")
    ensures !StartsWith(date + ", " + st + " - " + et, "From ")
  {
    var tail := ", " + st + " - " + et;
    assert date + ", " + st + " - " + et == date + tail;
    NotFromPrefix(date, tail);
  }

  lemma MultiDayText(sd: string, st: string, ed: string, et: string)
    ensures StartsWith("From " + sd + " " + st + " to " + ed + " " + et, "From ")
  {
    var rest := sd + " " + st + " to " + ed + " " + et;
    ConcatEnds("From ", rest);
    assert "From " + sd + " " + st + " to " + ed + " " + et == "From " + rest;
  }

  /** A text that does not begin with "From " is still not one after a tail beginning with ',' is added. */
  lemma NotFromPrefix(d: string, tail: string)
    requires |tail| >= 1 && tail[0] == ',' && !StartsWith(d, "From ")
    ensures !StartsWith(d + tail, "From ")
  {
    var r := d + tail;
    if |d| >= 5 {
      assert r[..5] == d[..5];
    } else if |r| >= 5 {
      assert r[|d|] == ',';
      assert "From "[|d|] != ',';
    }
  }

  /** The reason shown in the time-off popup. */
  function ReasonText(description: string): (r: string)
    ensures r != ""
    ensures description != "" ==> r == description
  {
    if description != "" then description else "No reason provided"
  }

  // ---------------------------------------------------------------- staff lookup

  datatype StaffUser = StaffUser(id: string, firstName: string, lastName: string, email: string, phone: string)

  /** An entry of `window.staff_data`; its `user` may be missing. */
  datatype StaffEntry = StaffEntry(user: Option<StaffUser>)

  /** `window.staff_data`: absent, something other than an array, or an array. */
  datatype StaffData = NoStaffData | NotAnArray | StaffArray(entries: seq<StaffEntry>)

  predicate IsStaff(e: StaffEntry, staffId: string)
  {
    e.user.Some? && e.user.value.id == staffId
  }

  /** The `find` over the array, then the entry's user. */
  function FindIn(entries: seq<StaffEntry>, staffId: string): (r: Option<StaffUser>)
    ensures r.None? <==> forall i :: 0 <= i < |entries| ==> !IsStaff(entries[i], staffId)
    ensures r.Some? ==> r.value.id == staffId && StaffEntry(r) in entries
  {
    if entries == [] then None
    else if IsStaff(entries[0], staffId) then entries[0].user
    else FindIn(entries[1..], staffId)
  }

  /** `findStaffById`. */
  function FindStaffById(data: StaffData, staffId: string): (r: Option<StaffUser>)
    ensures !data.StaffArray? ==> r.None?
    ensures data.StaffArray? ==> (r.None? <==> forall i :: 0 <= i < |data.entries| ==> !IsStaff(data.entries[i], staffId))
    ensures r.Some? ==> r.value.id == staffId
  {
    if data.StaffArray? then FindIn(data.entries, staffId) else None
  }

  /** The lookup returns the user of the first matching entry. */
  lemma {:induction false} FindInFirst(entries: seq<StaffEntry>, staffId: string, i: nat)
    requires i < |entries| && IsStaff(entries[i], staffId)
    requires forall j :: 0 <= j < i ==> !IsStaff(entries[j], staffId)
    ensures FindIn(entries, staffId) == entries[i].user
  {
    if i > 0 {
      assert !IsStaff(entries[0], staffId);
      FindInFirst(entries[1..], staffId, i - 1);
    }
  }

  // ---------------------------------------------------------------- popups

  datatype CalendarEvent = CalendarEvent(id: string, isTimeOff: bool, status: string, description: string)

  datatype PopupKind = TimeOffPopup | BookingDetails

  /** `showEventPopup`'s dispatch. */
  function PopupFor(e: CalendarEvent): (r: PopupKind)
    ensures r == TimeOffPopup <==> e.isTimeOff
    ensures r == BookingDetails <==> !e.isTimeOff
  {
    if e.isTimeOff then TimeOffPopup else BookingDetails
  }

  /** The confirm button's display: shown only for a scheduled booking. */
  function ConfirmDisplay(status: string): (r: string)
    ensures r == "block" <==> status == "scheduled"
    ensures r != "block" ==> r == "none"
  {
    if status == "scheduled" then "block" else "none"
  }

  /** The completed button's display as written: set for a confirmed booking, otherwise left as the last popup left it. */
  function CompletedDisplayAsWritten(status: string, previous: string): (r: string)
    ensures status == "confirmed" ==> r == "block"
    ensures status != "confirmed" ==> r == previous
  {
    if status == "confirmed" then "block" else previous
  }

  /** After a confirmed booking's popup, a scheduled booking's popup shows both the confirm and the completed button. */
  lemma CompletedDisplayAsWrittenLeaksIntoScheduled()
    ensures var first := CompletedDisplayAsWritten("confirmed", "none");
      ConfirmDisplay("scheduled") == "block" && CompletedDisplayAsWritten("scheduled", first) == "block"
  {
  }

  /** The completed button's display: shown exactly for a confirmed booking. */
  function CompletedDisplay(status: string): (r: string)
    ensures r == "block" <==> status == "confirmed"
    ensures r != "block" ==> r == "none"
  {
    if status == "confirmed" then "block" else "none"
  }

  /** Whatever the status, the popup never offers both buttons. */
  lemma NeverBothButtons(status: string)
    ensures !(ConfirmDisplay(status) == "block" && CompletedDisplay(status) == "block")
  {
  }

  /** The booking popup's two action buttons; `None` when the page lacks one. */
  class BookingPopup {
    var confirmDisplay: Option<string>
    var completedDisplay: Option<string>

    constructor (confirm: Option<string>, completed: Option<string>)
      ensures confirmDisplay == confirm && completedDisplay == completed
    {
      confirmDisplay := confirm;
      completedDisplay := completed;
    }

    /**
     * `setupBookingPopupActions`, with the completed button hidden for any
     * other status. A page without the completed button makes the handler's
     * `else` branch write to `null.style`: the TypeError (`thrown`) ends
     * `showBookingDetails` before the popup is positioned and shown, after the
     * confirm button has been set.
     */
    method SetupActions(status: string) returns (thrown: bool)
      modifies this
      ensures thrown <==> old(completedDisplay).None?
      ensures confirmDisplay.Some? <==> old(confirmDisplay).Some?
      ensures completedDisplay.Some? <==> old(completedDisplay).Some?
      ensures confirmDisplay.Some? ==> confirmDisplay.value == ConfirmDisplay(status)
      ensures completedDisplay.Some? ==> completedDisplay.value == CompletedDisplay(status)
      ensures !(confirmDisplay == Some("block") && completedDisplay == Some("block"))
    {
      if confirmDisplay.Some? {
        confirmDisplay := Some(ConfirmDisplay(status));
      }
      thrown := completedDisplay.None?;
      if completedDisplay.Some? {
        completedDisplay := Some(CompletedDisplay(status));
      }
      NeverBothButtons(status);
    }
  }
}
