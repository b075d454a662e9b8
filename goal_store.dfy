/**
 * The goal store: at most one long-term goal, kept under one persisted key
 * (`rhythme_goal`).  The key is the field `GoalStorage.stored`; an absent or
 * unreadable key reads as `None`.  Ids and the current time are parameters.
 */
module GoalStore {
  import opened Common

  datatype GoalStatus = Active | Achieved | Paused

  datatype Goal = Goal(
    id: string,
    title: string,
    description: Option<string>,
    targetDate: Timestamp,
    createdAt: Timestamp,
    updatedAt: Timestamp,
    status: GoalStatus,
    progress: int)

  datatype GoalInput = GoalInput(title: string, description: Option<string>, targetDate: Timestamp)

  /** A partial goal for `update`; `id` and `createdAt` cannot be patched. */
  datatype GoalPatch = GoalPatch(
    title: Option<string>,
    description: Option<Option<string>>,
    targetDate: Option<Timestamp>,
    updatedAt: Option<Timestamp>,
    status: Option<GoalStatus>,
    progress: Option<int>)

  /** The record `create` writes: the input, a fresh id, status active, progress 0. */
  function NewGoal(input: GoalInput, id: string, now: Timestamp): (g: Goal)
    ensures g.id == id && g.createdAt == now && g.updatedAt == now
    ensures GoalInput(g.title, g.description, g.targetDate) == input
    ensures g.status == Active && g.progress == 0
  {
    Goal(id, input.title, input.description, input.targetDate, now, now, Active, 0)
  }

  /** The record `update` writes: the goal, the patched fields over it, and `updatedAt := now`. */
  function MergeGoal(g: Goal, p: GoalPatch, now: Timestamp): (u: Goal)
    ensures u.id == g.id && u.createdAt == g.createdAt && u.updatedAt == now
    ensures u.title == Pick(p.title, g.title) && u.description == Pick(p.description, g.description)
    ensures u.targetDate == Pick(p.targetDate, g.targetDate)
    ensures u.status == Pick(p.status, g.status) && u.progress == Pick(p.progress, g.progress)
  {
    Goal(g.id, Pick(p.title, g.title), Pick(p.description, g.description),
         Pick(p.targetDate, g.targetDate), g.createdAt, now,
         Pick(p.status, g.status), Pick(p.progress, g.progress))
  }

  /** `Math.max(0, Math.min(100, x))`. */
  function Clamp(x: int): (r: int)
    ensures 0 <= r <= 100
    ensures 0 <= x <= 100 ==> r == x
    ensures x < 0 ==> r == 0
    ensures x > 100 ==> r == 100
  {
    var low := if x < 100 then x else 100;
    if 0 < low then low else 0
  }

  /** The patch `updateProgress(x)` sends to `update`. */
  function ProgressPatch(x: int): (p: GoalPatch)
    ensures p.title.None? && p.description.None? && p.targetDate.None? && p.updatedAt.None?
    ensures p.progress.Some? && 0 <= p.progress.value <= 100
    ensures p.status.Some? && p.status.value != Paused
    ensures p.status == Some(Achieved) <==> p.progress == Some(100)
  {
    GoalPatch(None, None, None, None, if x >= 100 then Some(Achieved) else Some(Active), Some(Clamp(x)))
  }

  /** Progress updates keep progress in [0,100] and set achieved exactly at 100. */
  lemma ProgressRule(g: Goal, x: int, now: Timestamp)
    ensures var u := MergeGoal(g, ProgressPatch(x), now);
      && 0 <= u.progress <= 100
      && (u.status == Achieved <==> x >= 100)
      && (u.status == Achieved <==> u.progress == 100)
      && u.status != Paused
      && u.id == g.id && u.title == g.title && u.targetDate == g.targetDate
  {
  }

  /** `ceil(a / b)` for a positive divisor (Dafny's `/` floors for positive divisors). */
  function CeilDiv(a: int, b: int): (q: int)
    requires b > 0
    ensures (q - 1) * b < a <= q * b
  {
    -((-a) / b)
  }

  /** `getDaysRemaining`: whole days to the target date, rounded up; negative once overdue. */
  function DaysRemaining(g: Goal, now: Timestamp): (d: int)
    ensures (d - 1) * MsPerDay < g.targetDate - now <= d * MsPerDay
  {
    CeilDiv(g.targetDate - now, MsPerDay)
  }

  /** The sign facts: 0 on the day itself, -1 one day late, positive before the target. */
  lemma DaysRemainingSign(g: Goal, now: Timestamp)
    ensures g.targetDate == now ==> DaysRemaining(g, now) == 0
    ensures g.targetDate == now - MsPerDay ==> DaysRemaining(g, now) == -1
    ensures g.targetDate > now ==> DaysRemaining(g, now) > 0
    ensures g.targetDate <= now ==> DaysRemaining(g, now) <= 0
  {
    var d := DaysRemaining(g, now);
    if g.targetDate == now - MsPerDay {
      assert (d - 1) * MsPerDay < -MsPerDay <= d * MsPerDay;
    }
  }

  class GoalStorage {
    /** The persisted record under `rhythme_goal`, if any. */
    var stored: Option<Goal>

    constructor ()
      ensures stored == None
    {
      stored := None;
    }

    /** `get`: the current goal, or none. */
    method Get() returns (g: Option<Goal>)
      ensures g == stored
    {
      g := stored;
    }

    /** `hasGoal`: true exactly when `get` gives a goal. */
    method HasGoal() returns (b: bool)
      ensures b <==> stored.Some?
    {
      var goal := Get();
      b := goal != None;
    }

    /** `create`: writes a fresh goal, discarding any previous one. */
    method Create(input: GoalInput, id: string, now: Timestamp) returns (g: Goal)
      modifies this
      ensures g.id == id && g.title == input.title && g.description == input.description
      ensures g.targetDate == input.targetDate
      ensures g.status == Active && g.progress == 0 && g.createdAt == now && g.updatedAt == now
      ensures stored == Some(g)
    {
      g := NewGoal(input, id, now);
      stored := Some(g);
    }

    /** `update`: null and no write without a goal; otherwise the merged goal is written. */
    method Update(p: GoalPatch, now: Timestamp) returns (r: Option<Goal>)
      modifies this
      ensures old(stored).None? ==> r == None && stored == None
      ensures old(stored).Some? ==> r == Some(MergeGoal(old(stored).value, p, now)) && stored == r
    {
      var goal := Get();
      if goal.None? {
        return None;
      }
      var updated := MergeGoal(goal.value, p, now);
      stored := Some(updated);
      r := stored;
    }

    /** `updateProgress`: an update with the clamped progress and the status it implies. */
    method UpdateProgress(x: int, now: Timestamp) returns (r: Option<Goal>)
      modifies this
      ensures old(stored).None? ==> r == None && stored == None
      ensures old(stored).Some? ==>
        && r.Some? && stored == r
        && r.value.progress == Clamp(x)
        && r.value.status == (if x >= 100 then Achieved else Active)
        && r.value == MergeGoal(old(stored).value, ProgressPatch(x), now)
    {
      r := Update(ProgressPatch(x), now);
    }

    /** `delete`: removes the record; a second delete finds nothing to remove. */
    method Delete()
      modifies this
      ensures stored == None
    {
      stored := None;
    }
  }
}
