/**
 * The onboarding tour completion record of users/models.py
 * (`OnboardingTourStatus`). Timestamps are integer seconds; `None` is a
 * null `completed_at`.
 */
module OnboardingModel {
  import opened Wrappers
  import opened Strings

  /** A stored row: the unique key (user id, tour name) is the key of the store's map. */
  datatype Row = Row(completed: bool, completedAt: Option<int>)

  /** Rows created without explicit values: not completed, no timestamp. */
  const DefaultRow := Row(false, None)

  function PyBool(b: bool): string { if b then "True" else "False" }

  class OnboardingTourStatus {
    const userId: string
    const tourName: string
    var completed: bool
    var completedAt: Option<int>

    function AsRow(): (r: Row)
      reads this
      ensures r.completed == completed && r.completedAt == completedAt
    {
      Row(completed, completedAt)
    }

    /** A new row with the field defaults. */
    constructor (userId: string, tourName: string)
      ensures this.userId == userId && this.tourName == tourName
      ensures AsRow() == DefaultRow
    {
      this.userId := userId;
      this.tourName := tourName;
      completed := false;
      completedAt := None;
    }

    /** A row read from (or created with explicit values in) the store. */
    constructor Load(userId: string, tourName: string, row: Row)
      ensures this.userId == userId && this.tourName == tourName
      ensures AsRow() == row
    {
      this.userId := userId;
      this.tourName := tourName;
      completed := row.completed;
      completedAt := row.completedAt;
    }

    /** `mark_completed`: completed and stamped with `now`; the key fields stay. Saving is the store's `Save`. */
    method MarkCompleted(now: int)
      modifies this
      ensures AsRow() == Row(true, Some(now))
    {
      completed := true;
      completedAt := Some(now);
    }

    /** `__str__`: the user id, tour name and completion flag, with Python's "True"/"False". */
    function Str(): (s: string)
      reads this
      ensures StartsWith(s, "OnboardingTourStatus(user=" + userId + ", tour=" + tourName)
      ensures EndsWith(s, ", completed=" + PyBool(completed) + ")")
      ensures s == "OnboardingTourStatus(user=" + userId + ", tour=" + tourName + ", completed=" + PyBool(completed) + ")"
    {
      var head := "OnboardingTourStatus(user=" + userId + ", tour=" + tourName;
      var tail := ", completed=" + PyBool(completed) + ")";
      assert (head + tail)[..|head|] == head;
      assert (head + tail)[|head + tail| - |tail|..] == tail;
      head + tail
    }
  }
}
