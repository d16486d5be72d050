/**
 * The time-off form of static/js/time-off-manager.js: the required-field
 * check and the one payload handed to the booking service. The form's
 * values are the inputs' strings.
 */
module TimeOff {
  import opened Strings

  datatype TimeOffForm = TimeOffForm(startDate: string, endDate: string, startTime: string, endTime: string,
                                     staffId: string, reason: string)

  /** The body `submitTimeOff` receives. */
  datatype TimeOffData = TimeOffData(startTime: string, endTime: string, userId: string, reason: string)

  /** What a submit does: an error message and no request, or exactly one submission. */
  datatype Submission = MissingFields(message: string) | Submitted(data: TimeOffData)

  /** A date and a time as the UTC timestamp the server is sent: "<date>T<time>:00Z". */
  function Timestamp(date: string, time: string): (r: string)
    ensures StartsWith(r, date) && EndsWith(r, ":00Z")
  {
    var r := date + ("T" + time + ":00Z");
    assert r[..|date|] == date;
    assert r[|r| - 4..] == ":00Z";
    r
  }

  /** The date and the time read back from a timestamp when neither holds a 'T'. */
  lemma TimestampReadsBack(date: string, time: string)
    requires 'T' !in date && 'T' !in time
    ensures Split(Timestamp(date, time), 'T') == [date, time + ":00Z"]
  {
    assert Timestamp(date, time) == date + ['T'] + (time + ":00Z");
    assert 'T' !in ":00Z";
    SplitTwo(date, time + ":00Z", 'T');
  }

  /** `handleTimeOffSubmit`. */
  function HandleTimeOffSubmit(f: TimeOffForm): (r: Submission)
    ensures r.MissingFields? <==> f.startDate == "" || f.endDate == "" || f.startTime == "" || f.endTime == "" || f.staffId == ""
    ensures r.MissingFields? ==> r.message == "Please fill in all required fields"
    ensures r.Submitted? ==> (r.data.startTime == Timestamp(f.startDate, f.startTime) &&
      r.data.endTime == Timestamp(f.endDate, f.endTime) && r.data.userId == f.staffId)
    ensures r.Submitted? && f.reason != "" ==> r.data.reason == f.reason
    ensures r.Submitted? && f.reason == "" ==> r.data.reason == "Time off"
  {
    if f.startDate == "" || f.endDate == "" || f.startTime == "" || f.endTime == "" || f.staffId == "" then
      MissingFields("Please fill in all required fields")
    else
      Submitted(TimeOffData(Timestamp(f.startDate, f.startTime), Timestamp(f.endDate, f.endTime), f.staffId,
                            if f.reason != "" then f.reason else "Time off"))
  }

  /** A submitted payload carries the form's dates and times back out of its timestamps. */
  lemma SubmittedReadsBack(f: TimeOffForm)
    requires HandleTimeOffSubmit(f).Submitted?
    requires 'T' !in f.startDate && 'T' !in f.startTime && 'T' !in f.endDate && 'T' !in f.endTime
    ensures var d := HandleTimeOffSubmit(f).data;
      Split(d.startTime, 'T') == [f.startDate, f.startTime + ":00Z"] &&
      Split(d.endTime, 'T') == [f.endDate, f.endTime + ":00Z"]
  {
    TimestampReadsBack(f.startDate, f.startTime);
    TimestampReadsBack(f.endDate, f.endTime);
  }
}
