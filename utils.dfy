/**
 * The page helpers of static/js/utils.js: zero-padded date and time text,
 * the message box with its delayed hide, and the spinner switch. A `Date`
 * is the calendar triple the JavaScript `Date` getters return; the DOM
 * elements are optional values (`None` when the page lacks them).
 */
module Utils {
  import opened Wrappers
  import opened Strings

  /** `getFullYear()`, `getMonth()` (0-based) and `getDate()` of a JavaScript date. */
  datatype Date = Date(year: int, monthIndex: int, day: int)

  /** `formatDate`: "YYYY-MM-DD" with the month and day padded to two digits. */
  function FormatDate(d: Date): string
  {
    IntToString(d.year) + "-" + JsPad2(d.monthIndex + 1) + "-" + JsPad2(d.day)
  }

  /** The three '-'-separated fields of a formatted date read back as the year, the 1-based month and the day. */
  lemma FormatDateReadsBack(d: Date)
    requires d.year >= 0 && d.monthIndex >= 0 && d.day >= 0
    ensures var parts := Split(FormatDate(d), '-');
      parts == [NatToString(d.year), Pad2(d.monthIndex + 1), Pad2(d.day)] &&
      ParseIntJs(parts[0]) == Some(d.year) &&
      ParseIntJs(parts[1]) == Some(d.monthIndex + 1) &&
      ParseIntJs(parts[2]) == Some(d.day)
  {
    var y, m, dd := NatToString(d.year), Pad2(d.monthIndex + 1), Pad2(d.day);
    FormatDateText(d);
    DigitFieldsSplit(y, m, dd);
    var parts := Split(FormatDate(d), '-');
    assert parts == [y, m, dd];
    assert parts[0] == y && parts[1] == m && parts[2] == dd;
    ParseIntJsNat(d.year);
    ParseIntJsPad2(d.monthIndex + 1);
    ParseIntJsPad2(d.day);
  }

  /** With no negative field, the formatted date is the decimal fields joined by '-'. */
  lemma FormatDateText(d: Date)
    requires d.year >= 0 && d.monthIndex >= 0 && d.day >= 0
    ensures FormatDate(d) == NatToString(d.year) + ['-'] + Pad2(d.monthIndex + 1) + ['-'] + Pad2(d.day)
  {
    assert IntToString(d.year) == NatToString(d.year);
    assert JsPad2(d.monthIndex + 1) == Pad2(d.monthIndex + 1);
    assert JsPad2(d.day) == Pad2(d.day);
  }

  lemma DigitFieldsSplit(y: string, m: string, dd: string)
    requires AllDigits(y) && AllDigits(m) && AllDigits(dd)
    ensures Split(y + ['-'] + m + ['-'] + dd, '-') == [y, m, dd]
  {
    DigitsExclude(y, '-');
    DigitsExclude(m, '-');
    DigitsExclude(dd, '-');
    SplitThree(y, m, dd, '-');
  }

  /** Month and day always take two characters each. */
  lemma FormatDateLength(d: Date)
    requires d.year >= 0 && 0 <= d.monthIndex < 12 && 0 <= d.day < 100
    ensures |FormatDate(d)| == |NatToString(d.year)| + 6
  {
    assert |Pad2(d.monthIndex + 1)| == 2 && |Pad2(d.day)| == 2;
  }

  /** `formatTime`: "HH:MM", each part padded to two digits. */
  function FormatTime(hours: int, minutes: int): string
  {
    JsPad2(hours) + ":" + JsPad2(minutes)
  }

  /** Within a day a formatted time is five characters whose ':'-separated parts read back as the hour and minute. */
  lemma FormatTimeReadsBack(hours: nat, minutes: nat)
    ensures var parts := Split(FormatTime(hours, minutes), ':');
      parts == [Pad2(hours), Pad2(minutes)] &&
      ParseIntJs(parts[0]) == Some(hours) && ParseIntJs(parts[1]) == Some(minutes)
    ensures hours < 100 && minutes < 100 ==> |FormatTime(hours, minutes)| == 5
  {
    var h, m := Pad2(hours), Pad2(minutes);
    assert FormatTime(hours, minutes) == h + [':'] + m;
    DigitsExclude(h, ':');
    DigitsExclude(m, ':');
    SplitTwo(h, m, ':');
    ParseIntJsDigits(h);
    ParseIntJsDigits(m);
  }

  /** The `#booking-message` box: its text, whether it is displayed, and whether it has the success style. */
  datatype MessageBox = MessageBox(text: string, shown: bool, success: bool)

  /** `showMessage` without its timer: nothing without the box, else the text, the style for `type`, displayed. */
  function ShowMessage(box: Option<MessageBox>, message: string, kind: string): (r: Option<MessageBox>)
    ensures box.None? <==> r.None?
    ensures r.Some? ==> r.value.text == message && r.value.shown && (r.value.success <==> kind == "success")
  {
    if box.None? then None else Some(MessageBox(message, true, kind == "success"))
  }

  /** The timer set by `showMessage(message, ...)`: hides the box only while it still shows that text. */
  function AutoHide(box: Option<MessageBox>, message: string): (r: Option<MessageBox>)
    ensures box.Some? && box.value.text == message ==> r == Some(box.value.(shown := false))
    ensures !(box.Some? && box.value.text == message) ==> r == box
  {
    if box.Some? && box.value.text == message then Some(box.value.(shown := false)) else box
  }

  /** A message's own timer hides it. */
  lemma TimerHidesItsMessage(box: Option<MessageBox>, message: string, kind: string)
    requires box.Some?
    ensures var shown := ShowMessage(box, message, kind);
      AutoHide(shown, message) == Some(shown.value.(shown := false))
  {
  }

  /** A later, different message survives the earlier message's timer. */
  lemma TimerSparesNewerMessage(box: Option<MessageBox>, first: string, second: string, kind1: string, kind2: string)
    requires first != second
    ensures var now := ShowMessage(ShowMessage(box, first, kind1), second, kind2);
      AutoHide(now, first) == now
  {
  }

  /** `toggleSpinner`: the spinner's display becomes "flex" when shown, "none" when hidden; without a spinner nothing happens. */
  function ToggleSpinner(display: Option<string>, show: bool): (r: Option<string>)
    ensures display.None? ==> r.None?
    ensures display.Some? ==> r == Some(if show then "flex" else "none")
  {
    if display.None? then None else Some(if show then "flex" else "none")
  }
}
