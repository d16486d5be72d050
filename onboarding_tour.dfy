/**
 * The browser side of the guided tours, static/js/onboarding.js: the
 * decision to start a tour, the local completion flag, the steps handed to
 * the tour library, and the polling wait for an element. Local storage is a
 * map; the server's reply, the page's elements (as a predicate on selectors,
 * or on poll ticks) and the random id suffixes are parameters;
 * `encodeURIComponent` is a function parameter.
 */
module OnboardingTour {
  import opened Wrappers
  import opened Strings

  // ---------------------------------------------------------------- waiting for an element

  /** The polling period of `waitFor`, in milliseconds. */
  const Interval := 100

  /** The number of polls `waitFor` makes before it gives up: at least one, then until 100 ms per poll reach the timeout. */
  function Ticks(timeoutMs: int): (n: nat)
    ensures n >= 1 && Interval * n >= timeoutMs
    ensures n == 1 || Interval * (n - 1) < timeoutMs
  {
    if timeoutMs <= Interval then 1 else (timeoutMs + Interval - 1) / Interval
  }

  datatype Wait = Resolved(tick: nat) | TimedOut(elapsedMs: int)

  /**
   * `waitFor`: `present(0)` is the check made at once, `present(k)` the one
   * made by the k-th poll. The wait resolves at the first check that finds
   * the element, and is rejected once the elapsed time reaches the timeout.
   */
  method WaitFor(present: nat -> bool, timeoutMs: int) returns (r: Wait)
    ensures r.Resolved? ==> present(r.tick) && r.tick <= Ticks(timeoutMs) && forall j :: 0 <= j < r.tick ==> !present(j)
    ensures r.TimedOut? ==> (r.elapsedMs == Interval * Ticks(timeoutMs) && r.elapsedMs >= timeoutMs &&
      forall j :: 0 <= j <= Ticks(timeoutMs) ==> !present(j))
  {
    if present(0) {
      return Resolved(0);
    }
    var elapsed := 0;
    var tick := 1;
    while true
      invariant 1 <= tick <= Ticks(timeoutMs)
      invariant elapsed == Interval * (tick - 1)
      invariant forall j :: 0 <= j < tick ==> !present(j)
      decreases Ticks(timeoutMs) - tick
    {
      if present(tick) {
        return Resolved(tick);
      }
      elapsed := elapsed + Interval;
      if elapsed >= timeoutMs {
        return TimedOut(elapsed);
      }
      tick := tick + 1;
    }
  }

  // ---------------------------------------------------------------- steps

  /** A step's buttons: the defaults, or ones the page supplies. */
  datatype Button = NextButton | DoneButton | CustomButton(text: string)

  /** A step as a page describes it; "" for a field it leaves out. */
  datatype StepSpec = StepSpec(id: string, selector: string, text: string, attachTo: string, classes: string,
                               buttons: seq<Button>)

  /** A step as handed to the tour library. */
  datatype Step = Step(id: string, text: string, attach: Option<(string, string)>, classes: Option<string>,
                       buttons: seq<Button>)

  /** The step `startTour` builds for `steps[i]`; `suffix` stands for the random id suffix. */
  function StepFor(steps: seq<StepSpec>, i: nat, present: string -> bool, suffix: string): (r: Step)
    requires i < |steps|
    ensures steps[i].buttons != [] ==> r.buttons == steps[i].buttons
    ensures steps[i].buttons == [] && i < |steps| - 1 ==> r.buttons == [NextButton]
    ensures steps[i].buttons == [] && i == |steps| - 1 ==> r.buttons == [DoneButton]
    ensures r.attach.Some? <==> steps[i].selector != "" && present(steps[i].selector)
    ensures r.attach.Some? ==> (r.attach.value.0 == steps[i].selector &&
      r.attach.value.1 == (if steps[i].attachTo != "" then steps[i].attachTo else "bottom"))
    ensures steps[i].id != "" ==> r.id == steps[i].id
    ensures steps[i].id == "" ==> r.id == (if steps[i].selector != "" then steps[i].selector else "step") + "-" + suffix
  {
    var s := steps[i];
    Step(if s.id != "" then s.id else (if s.selector != "" then s.selector else "step") + "-" + suffix,
         s.text,
         if s.selector != "" && present(s.selector) then Some((s.selector, if s.attachTo != "" then s.attachTo else "bottom")) else None,
         if s.classes != "" then Some(s.classes) else None,
         if s.buttons != [] then s.buttons else if i < |steps| - 1 then [NextButton] else [DoneButton])
  }

  /** The `for` loop of `startTour` that adds the steps in order. */
  method BuildSteps(steps: seq<StepSpec>, present: string -> bool, suffixes: nat -> string) returns (built: seq<Step>)
    ensures |built| == |steps|
    ensures forall i :: 0 <= i < |steps| ==> built[i] == StepFor(steps, i, present, suffixes(i))
  {
    built := [];
    var i := 0;
    while i < |steps|
      invariant 0 <= i <= |steps| && |built| == i
      invariant forall k :: 0 <= k < i ==> built[k] == StepFor(steps, k, present, suffixes(k))
    {
      built := built + [StepFor(steps, i, present, suffixes(i))];
      i := i + 1;
    }
  }

  /** Among the steps without buttons of their own, only the last step of the tour gets "Done". */
  lemma OnlyLastIsDone(steps: seq<StepSpec>, built: seq<Step>, present: string -> bool, suffixes: nat -> string)
    requires |built| == |steps|
    requires forall i :: 0 <= i < |steps| ==> built[i] == StepFor(steps, i, present, suffixes(i))
    ensures forall i :: 0 <= i < |steps| && steps[i].buttons == [] ==>
      (DoneButton in built[i].buttons <==> i == |steps| - 1)
  {
    forall i | 0 <= i < |steps| && steps[i].buttons == []
      ensures DoneButton in built[i].buttons <==> i == |steps| - 1
    {
      var b := StepFor(steps, i, present, suffixes(i)).buttons;
      if i < |steps| - 1 {
        assert b == [NextButton];
      }
    }
  }

  // ---------------------------------------------------------------- starting and completing

  /** The local-storage key of a tour's completion flag. */
  function FlagKey(tourName: string): string
  {
    "onboarding_completed_" + tourName
  }

  /** The status request's URL: `?user_id=` only when the page knows the user's id. */
  function StatusUrl(tourName: string, userId: string, encode: string -> string): (r: string)
    ensures userId == "" ==> r == "/users/api/onboarding/status/" + encode(tourName) + "/"
    ensures userId != "" ==> r == "/users/api/onboarding/status/" + encode(tourName) + "/" + "?user_id=" + encode(userId)
  {
    var base := "/users/api/onboarding/status/" + encode(tourName) + "/";
    if userId != "" then base + "?user_id=" + encode(userId) else base
  }

  /** What the status request gives: a failure, or the JSON's `completed` (false when missing or null). */
  datatype StatusReply = StatusFailed | StatusJson(completed: bool)

  /** What `startIfNotCompleted` does. */
  datatype Decision = SkippedLocally | StartedTour(url: string) | CompletedOnServer(url: string)

  /** The browser's local storage, as far as the tours use it. */
  class Tours {
    var storage: map<string, string>

    constructor (storage0: map<string, string>)
      ensures storage == storage0
    {
      storage := storage0;
    }

    /** The tour was completed in this browser. */
    predicate LocallyCompleted(tourName: string)
      reads this
    {
      FlagKey(tourName) in storage && storage[FlagKey(tourName)] == "1"
    }

    /**
     * `startIfNotCompleted`: a local flag skips the tour with no request;
     * otherwise the status is fetched, and the tour starts unless the server
     * says it was completed, in which case the local flag is set.
     */
    method StartIfNotCompleted(tourName: string, userId: string, reply: StatusReply, encode: string -> string)
      returns (d: Decision)
      modifies this
      ensures d == SkippedLocally <==> old(LocallyCompleted(tourName))
      ensures d == SkippedLocally ==> storage == old(storage)
      ensures d.StartedTour? <==> !old(LocallyCompleted(tourName)) && (reply.StatusFailed? || !reply.completed)
      ensures d.StartedTour? ==> d.url == StatusUrl(tourName, userId, encode) && storage == old(storage)
      ensures d.CompletedOnServer? ==> d.url == StatusUrl(tourName, userId, encode) && storage == old(storage)[FlagKey(tourName) := "1"]
      ensures LocallyCompleted(tourName) <==> !d.StartedTour?
    {
      if LocallyCompleted(tourName) {
        return SkippedLocally;
      }
      var url := StatusUrl(tourName, userId, encode);
      if reply.StatusFailed? || !reply.completed {
        return StartedTour(url);
      }
      storage := storage[FlagKey(tourName) := "1"];
      d := CompletedOnServer(url);
    }

    /** `postComplete`: the local flag is set before the completion is posted. */
    method PostComplete(tourName: string, encode: string -> string) returns (url: string)
      modifies this
      ensures url == "/users/api/onboarding/complete/" + encode(tourName) + "/"
      ensures storage == old(storage)[FlagKey(tourName) := "1"]
      ensures LocallyCompleted(tourName)
    {
      storage := storage[FlagKey(tourName) := "1"];
      url := "/users/api/onboarding/complete/" + encode(tourName) + "/";
    }
  }
}
