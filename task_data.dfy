/** TaskData.cs: one tracked task, a counter clamped at its target with a
    completion flag that latches. */
module TaskRecords {
  import opened Common
  import opened Text

  /** The fields of a TaskData object at one moment. */
  datatype TaskRecord = TaskRecord(
    taskName: string,
    targetCount: int,
    currentCount: int,
    description: string,
    isCompleted: bool)

  /** A task as the constructor leaves it: nothing counted, not completed. */
  function NewTask(name: string, target: int, desc: string): (r: TaskRecord)
    ensures r.taskName == name && r.targetCount == target && r.description == desc
    ensures r.currentCount == 0 && !r.isCompleted
  {
    TaskRecord(name, target, 0, desc, false)
  }

  function Min(a: int, b: int): int {
    if a < b then a else b
  }

  /** The record after UpdateProgress(amount). */
  function Progressed(t: TaskRecord, amount: int): TaskRecord {
    if t.isCompleted then t
    else
      var c := Min(t.currentCount + amount, t.targetCount);
      t.(currentCount := c, isCompleted := c >= t.targetCount)
  }

  /** A completed task ignores every further update. */
  lemma CompletedIsFinal(t: TaskRecord, amount: int)
    requires t.isCompleted
    ensures Progressed(t, amount) == t
  {
  }

  /** On an open task the new count is the sum clamped at the target; only the count and the flag change. */
  lemma ProgressClamps(t: TaskRecord, amount: int)
    requires !t.isCompleted
    ensures Progressed(t, amount).currentCount <= t.targetCount
    ensures Progressed(t, amount).currentCount <= t.currentCount + amount
    ensures Progressed(t, amount).currentCount == t.currentCount + amount
            || Progressed(t, amount).currentCount == t.targetCount
    ensures Progressed(t, amount).(currentCount := t.currentCount, isCompleted := t.isCompleted) == t
  {
  }

  /** After an update the task is completed exactly when it already was or the count reached the target. */
  lemma CompletionMeaning(t: TaskRecord, amount: int)
    ensures Progressed(t, amount).isCompleted
            <==> t.isCompleted || t.currentCount + amount >= t.targetCount
  {
  }

  /** With the count within the target, updates keep it there; non-negative amounts never lower it. */
  lemma CountStaysBounded(t: TaskRecord, amount: int)
    requires t.currentCount <= t.targetCount
    ensures Progressed(t, amount).currentCount <= t.targetCount
    ensures amount >= 0 ==> Progressed(t, amount).currentCount >= t.currentCount
  {
  }

  /** GetProgressText: the decimal count, a slash, the decimal target. Splitting the
      text at its first '/' and parsing both halves gives the two numbers back. */
  function ProgressText(current: int, target: int): (r: string)
    ensures 0 <= IndexOf(r, '/')
    ensures ParseInt(r[..IndexOf(r, '/')]) == Some(current)
    ensures ParseInt(r[IndexOf(r, '/') + 1..]) == Some(target)
  {
    var a := IntToDecimal(current);
    var b := IntToDecimal(target);
    IntToDecimalChars(current);
    FirstSeparator(a, b, '/');
    assert (a + "/" + b)[..|a|] == a;
    assert (a + "/" + b)[|a| + 1..] == b;
    IntRoundTrip(current);
    IntRoundTrip(target);
    a + "/" + b
  }

  /** Different (count, target) pairs never show the same progress text. */
  lemma ProgressTextInjective(c1: int, t1: int, c2: int, t2: int)
    ensures ProgressText(c1, t1) == ProgressText(c2, t2) <==> c1 == c2 && t1 == t2
  {
    if ProgressText(c1, t1) == ProgressText(c2, t2) {
      JoinedIntsInjective(c1, t1, c2, t2, '/');
    }
  }

  /** GetProgressPercentage as an exact fraction: 0 for a non-positive target,
      otherwise the share of the target reached. */
  function ProgressFraction(current: int, target: int): (r: real)
    ensures target <= 0 ==> r == 0.0
    ensures target > 0 ==> r * target as real == current as real
    ensures target > 0 && 0 <= current <= target ==> 0.0 <= r <= 1.0
  {
    if target <= 0 then 0.0 else current as real / target as real
  }

  /** The record after n updates of +1 each. */
  function UpdatedTimes(t: TaskRecord, n: nat): TaskRecord {
    if n == 0 then t else Progressed(UpdatedTimes(t, n - 1), 1)
  }

  /** The scene test: a task with target 5 reaches 5/5 on the fifth +1 update,
      and is still open after each of the first four. */
  lemma FiveUpdatesComplete(name: string, desc: string)
    ensures forall k :: 0 <= k < 5 ==> UpdatedTimes(NewTask(name, 5, desc), k) == NewTask(name, 5, desc).(currentCount := k)
    ensures UpdatedTimes(NewTask(name, 5, desc), 5) == NewTask(name, 5, desc).(currentCount := 5, isCompleted := true)
    ensures ProgressText(5, 5) == "5/5"
  {
    var t := NewTask(name, 5, desc);
    assert UpdatedTimes(t, 1) == t.(currentCount := 1);
    assert UpdatedTimes(t, 2) == t.(currentCount := 2);
    assert UpdatedTimes(t, 3) == t.(currentCount := 3);
    assert UpdatedTimes(t, 4) == t.(currentCount := 4);
  }

  class TaskData {
    var taskName: string
    var targetCount: int
    var currentCount: int
    var description: string
    var isCompleted: bool

    function View(): TaskRecord
      reads this
    {
      TaskRecord(taskName, targetCount, currentCount, description, isCompleted)
    }

    constructor (name: string, target: int, desc: string)
      ensures View() == NewTask(name, target, desc)
    {
      taskName := name;
      targetCount := target;
      currentCount := 0;
      description := desc;
      isCompleted := false;
    }

    method UpdateProgress(amount: int)
      modifies this
      ensures View() == Progressed(old(View()), amount)
    {
      if !isCompleted {
        currentCount := Min(currentCount + amount, targetCount);
        if currentCount >= targetCount {
          isCompleted := true;
        }
      }
    }

    function GetProgressPercentage(): real
      reads this
    {
      ProgressFraction(currentCount, targetCount)
    }

    function GetProgressText(): string
      reads this
    {
      ProgressText(currentCount, targetCount)
    }
  }
}
