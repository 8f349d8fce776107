/** TaskManager.cs: the registry of active tasks and their on-screen entries.
    The TaskUI components are opaque handles; what the manager asks of them
    (Initialize, UpdateDisplay, Complete, Hide, destroying their object) is an
    append-only call log. The DelayedRemove coroutine is split in two: starting
    it records the id as pending, and DelayedRemove is the step that runs once
    its waits are over. */
module TaskManagement {
  import opened Common
  import opened Text
  import opened TaskRecords

  /** A TaskUI component created by Instantiate, by creation order. */
  type UiHandle = nat

  /** A call the manager makes on a TaskUI, or the Destroy of its object. */
  datatype UiCall =
    | Initialize(ui: UiHandle, task: TaskRecord, number: string)
    | UpdateDisplay(ui: UiHandle, task: TaskRecord)
    | Complete(ui: UiHandle)
    | Hide(ui: UiHandle)
    | DestroyObject(ui: UiHandle)

  /** The manager's state: the two dictionaries (tasks as their current records),
      the UI call log, the ids whose removal coroutine has started, and how many
      TaskUI objects have been instantiated. */
  datatype ManagerState = ManagerState(
    tasks: map<string, TaskRecord>,
    uis: map<string, UiHandle>,
    log: seq<UiCall>,
    pending: seq<string>,
    created: nat)

  /** What holds between calls: every UI entry belongs to a task, every created
      handle is older than the counter, and each pending removal is for a
      completed task that still has its UI entry. */
  ghost predicate Inv(s: ManagerState) {
    && s.uis.Keys <= s.tasks.Keys
    && (forall id :: id in s.uis ==> s.uis[id] < s.created)
    && NoDup(s.pending)
    && (forall id :: id in s.pending ==> id in s.uis && s.tasks[id].isCompleted)
  }

  /** CreateTaskUI after the task is in the dictionary: when the prefab, the
      container and the component are all there, instantiate a UI, number it
      (the given number, or the task count when none is given), initialize it
      and record it. */
  function CreatedUi(s: ManagerState, uiAvailable: bool, id: string, number: string): ManagerState
    requires id in s.tasks
  {
    if !uiAvailable then s
    else
      var n := if number == "" then IntToDecimal(|s.tasks|) else number;
      s.(uis := s.uis[id := s.created],
         log := s.log + [Initialize(s.created, s.tasks[id], n)],
         created := s.created + 1)
  }

  /** AddTask: a new id gets a fresh task and then its UI; a known id is ignored. */
  function Added(s: ManagerState, uiAvailable: bool, id: string, name: string, target: int, desc: string, number: string): ManagerState {
    if id in s.tasks then s
    else CreatedUi(s.(tasks := s.tasks[id := NewTask(name, target, desc)]), uiAvailable, id, number)
  }

  /** UpdateTaskProgress: advance a known task; if it has a UI, refresh it, and on the
      open-to-completed transition play the completion and start the removal. */
  function ProgressReported(s: ManagerState, id: string, amount: int): ManagerState {
    if id !in s.tasks then s
    else
      var old_ := s.tasks[id];
      var t := Progressed(old_, amount);
      var s1 := s.(tasks := s.tasks[id := t]);
      if id !in s.uis then s1
      else
        var ui := s.uis[id];
        if !old_.isCompleted && t.isCompleted then
          s1.(log := s.log + [UpdateDisplay(ui, t), Complete(ui)], pending := s.pending + [id])
        else
          s1.(log := s.log + [UpdateDisplay(ui, t)])
  }

  /** The rest of DelayedRemove(id) once its waits are over: hide and destroy the UI and
      drop its entry, then drop the task; either entry may already be gone. */
  function Retired(s: ManagerState, id: string): ManagerState {
    ManagerState(
      s.tasks - {id},
      s.uis - {id},
      if id in s.uis then s.log + [Hide(s.uis[id]), DestroyObject(s.uis[id])] else s.log,
      RemoveFirst(s.pending, id),
      s.created)
  }

  // ---------------------------------------------------------------------------
  // Properties of the steps

  /** CreateTaskUI never meets an id that already has a UI entry, so the dictionary Add cannot fail. */
  lemma AddNeverDuplicatesUi(s: ManagerState, id: string)
    requires Inv(s) && id !in s.tasks
    ensures id !in s.uis
  {
  }

  lemma AddedKeepsInv(s: ManagerState, uiAvailable: bool, id: string, name: string, target: int, desc: string, number: string)
    requires Inv(s)
    ensures Inv(Added(s, uiAvailable, id, name, target, desc, number))
  {
    if id !in s.tasks {
      var s' := Added(s, uiAvailable, id, name, target, desc, number);
      forall p | p in s'.pending ensures p in s'.uis && s'.tasks[p].isCompleted {
        assert p != id;
      }
    }
  }

  /** AddTask with a new id inserts the constructed task and leaves the other tasks and UI entries
      as they were; with a known id it changes nothing at all. */
  lemma AddedEffect(s: ManagerState, uiAvailable: bool, id: string, name: string, target: int, desc: string, number: string)
    requires Inv(s)
    ensures id in s.tasks ==> Added(s, uiAvailable, id, name, target, desc, number) == s
    ensures id !in s.tasks ==>
      var s' := Added(s, uiAvailable, id, name, target, desc, number);
      && s'.tasks == s.tasks[id := NewTask(name, target, desc)]
      && (forall k :: k != id ==> (k in s'.uis <==> k in s.uis) && (k in s.uis ==> s'.uis[k] == s.uis[k]))
      && (id in s'.uis <==> uiAvailable)
      && s'.pending == s.pending
  {
  }

  /** Without a number the UI shows the task count after insertion: the first task added to an
      empty manager is numbered "1". */
  lemma FirstTaskNumberedOne(uiAvailable: bool, id: string, name: string, target: int, desc: string)
    requires uiAvailable
    ensures
      var s' := Added(ManagerState(map[], map[], [], [], 0), uiAvailable, id, name, target, desc, "");
      s'.log == [Initialize(0, NewTask(name, target, desc), "1")]
  {
    var m := map[id := NewTask(name, target, desc)];
    assert |m| == 1 by {
      assert m.Keys == {id};
    }
  }

  lemma ProgressKeepsInv(s: ManagerState, id: string, amount: int)
    requires Inv(s)
    ensures Inv(ProgressReported(s, id, amount))
  {
    if id in s.tasks && id in s.uis {
      var s' := ProgressReported(s, id, amount);
      if !s.tasks[id].isCompleted && s'.tasks[id].isCompleted {
        assert id !in s.pending;
        forall i, j | 0 <= i < j < |s'.pending| ensures s'.pending[i] != s'.pending[j] {
          if j == |s.pending| {
            assert s'.pending[i] == s.pending[i];
          }
        }
      }
    }
  }

  /** An unknown id changes nothing. */
  lemma ProgressUnknownIsNoop(s: ManagerState, id: string, amount: int)
    requires id !in s.tasks
    ensures ProgressReported(s, id, amount) == s
  {
  }

  /** The completion animation plays and the removal starts exactly when the update takes an open
      task with a UI entry to completed; a task without a UI is never scheduled for removal. */
  lemma CompletionSignalledOnce(s: ManagerState, id: string, amount: int)
    requires Inv(s) && id in s.tasks
    ensures
      var s' := ProgressReported(s, id, amount);
      var fires := id in s.uis && !s.tasks[id].isCompleted && s'.tasks[id].isCompleted;
      && (fires ==> s'.log == s.log + [UpdateDisplay(s.uis[id], s'.tasks[id]), Complete(s.uis[id])]
                     && s'.pending == s.pending + [id])
      && |s.log| <= |s'.log|
      && (!fires ==> s'.pending == s.pending && (forall c :: c in s'.log[|s.log|..] ==> !c.Complete?))
      && (s.tasks[id].isCompleted ==> !fires)
  {
  }

  lemma RetiredKeepsInv(s: ManagerState, id: string)
    requires Inv(s)
    ensures Inv(Retired(s, id))
  {
    var s1 :=
      if id in s.uis then
        s.(log := s.log + [Hide(s.uis[id]), DestroyObject(s.uis[id])], uis := s.uis - {id})
      else s;
    RemoveFirstNoDup(s1.pending, id);
    var r := Retired(s, id);
    forall p | p in r.pending ensures p in r.uis && r.tasks[p].isCompleted {
      RemoveFirstKeeps(s.pending, id, p);
    }
  }

  /** Removal drops the id from both dictionaries, tolerating entries that are already gone, and
      touches no other task; with no UI entry it makes no UI call. */
  lemma RetiredEffect(s: ManagerState, id: string)
    ensures Retired(s, id).tasks == s.tasks - {id}
    ensures Retired(s, id).uis == s.uis - {id}
    ensures id !in s.uis ==> Retired(s, id).log == s.log
    ensures id in s.uis ==> Retired(s, id).log == s.log + [Hide(s.uis[id]), DestroyObject(s.uis[id])]
  {
    if id in s.uis {
      assert Retired(s, id).uis == s.uis - {id};
    } else {
      assert Retired(s, id).uis == s.uis;
      assert s.uis - {id} == s.uis;
    }
  }

  /** After removal the id is no longer pending. */
  lemma RetiredNotPending(s: ManagerState, id: string)
    requires NoDup(s.pending)
    ensures id !in Retired(s, id).pending
  {
    RemoveFirstNoDup(s.pending, id);
  }

  /** The record after n updates of +1 each on the task id. */
  function ReportedTimes(s: ManagerState, id: string, n: nat): ManagerState {
    if n == 0 then s else ProgressReported(ReportedTimes(s, id, n - 1), id, 1)
  }

  /** The scene test: add "test_task_1" ("Collect Gems", target 5, number "1") and report +1
      five times. The task reads 5/5, the completion plays once, after the fifth update,
      and the removal of the task is then pending. */
  lemma CollectGemsScenario(desc: string)
    ensures
      var s0 := Added(ManagerState(map[], map[], [], [], 0), true, "test_task_1", "Collect Gems", 5, desc, "1");
      var t := NewTask("Collect Gems", 5, desc);
      var s5 := ReportedTimes(s0, "test_task_1", 5);
      && "test_task_1" in s5.tasks
      && s5.tasks["test_task_1"] == t.(currentCount := 5, isCompleted := true)
      && s5.pending == ["test_task_1"]
      && s5.log == [Initialize(0, t, "1"),
                    UpdateDisplay(0, t.(currentCount := 1)),
                    UpdateDisplay(0, t.(currentCount := 2)),
                    UpdateDisplay(0, t.(currentCount := 3)),
                    UpdateDisplay(0, t.(currentCount := 4)),
                    UpdateDisplay(0, t.(currentCount := 5, isCompleted := true)),
                    Complete(0)]
  {
    var s0 := Added(ManagerState(map[], map[], [], [], 0), true, "test_task_1", "Collect Gems", 5, desc, "1");
    var t := NewTask("Collect Gems", 5, desc);
    var id := "test_task_1";
    assert s0.tasks == map[id := t] && s0.uis == map[id := 0] && s0.pending == [];
    assert ReportedTimes(s0, id, 1).tasks == map[id := t.(currentCount := 1)];
    assert ReportedTimes(s0, id, 2).tasks == map[id := t.(currentCount := 2)];
    assert ReportedTimes(s0, id, 3).tasks == map[id := t.(currentCount := 3)];
    assert ReportedTimes(s0, id, 4).tasks == map[id := t.(currentCount := 4)];
    assert ReportedTimes(s0, id, 4).uis == map[id := 0];
    assert ReportedTimes(s0, id, 4).pending == [];
  }

  // ---------------------------------------------------------------------------
  // The manager

  class TaskManager {
    /** Whether taskUIPrefab and taskUIContainer are assigned and the prefab carries a TaskUI. */
    const uiAvailable: bool
    /** activeTasks, each TaskData held as its current record. */
    var activeTasks: map<string, TaskRecord>
    var activeTaskUIs: map<string, UiHandle>
    var uiLog: seq<UiCall>
    var pendingRemovals: seq<string>
    var uisCreated: nat

    function State(): ManagerState
      reads this
    {
      ManagerState(activeTasks, activeTaskUIs, uiLog, pendingRemovals, uisCreated)
    }

    ghost predicate Valid()
      reads this
    {
      Inv(State())
    }

    constructor (uiAvailable: bool)
      ensures Valid() && this.uiAvailable == uiAvailable
      ensures State() == ManagerState(map[], map[], [], [], 0)
    {
      this.uiAvailable := uiAvailable;
      activeTasks := map[];
      activeTaskUIs := map[];
      uiLog := [];
      pendingRemovals := [];
      uisCreated := 0;
    }

    method AddTask(taskId: string, taskName: string, targetCount: int, description: string, taskNumber: string)
      requires Valid()
      modifies this
      ensures Valid()
      ensures State() == Added(old(State()), uiAvailable, taskId, taskName, targetCount, description, taskNumber)
    {
      AddedKeepsInv(State(), uiAvailable, taskId, taskName, targetCount, description, taskNumber);
      if taskId !in activeTasks {
        var newTask := NewTask(taskName, targetCount, description);
        activeTasks := activeTasks[taskId := newTask];
        CreateTaskUI(taskId, taskNumber);
      }
    }

    method CreateTaskUI(taskId: string, taskNumber: string)
      requires taskId in activeTasks
      modifies this
      ensures State() == CreatedUi(old(State()), uiAvailable, taskId, taskNumber)
    {
      if uiAvailable {
        var number := taskNumber;
        if number == "" {
          number := IntToDecimal(|activeTasks|);
        }
        var ui := uisCreated;
        uisCreated := uisCreated + 1;
        uiLog := uiLog + [Initialize(ui, activeTasks[taskId], number)];
        activeTaskUIs := activeTaskUIs[taskId := ui];
      }
    }

    method UpdateTaskProgress(taskId: string, amount: int)
      requires Valid()
      modifies this
      ensures Valid()
      ensures State() == ProgressReported(old(State()), taskId, amount)
    {
      ProgressKeepsInv(State(), taskId, amount);
      if taskId in activeTasks {
        var task := activeTasks[taskId];
        var wasCompleted := task.isCompleted;
        task := Progressed(task, amount);
        activeTasks := activeTasks[taskId := task];
        if taskId in activeTaskUIs {
          var taskUI := activeTaskUIs[taskId];
          uiLog := uiLog + [UpdateDisplay(taskUI, task)];
          if !wasCompleted && task.isCompleted {
            uiLog := uiLog + [Complete(taskUI)];
            pendingRemovals := pendingRemovals + [taskId];
          }
        }
      }
    }

    /** DelayedRemove(taskId) from the point where both waits are over. The
        ContainsKey guard before removing the task is dropped: removing an absent
        key leaves a Dictionary as it is. */
    method DelayedRemove(taskId: string)
      requires Valid()
      modifies this
      ensures Valid()
      ensures State() == Retired(old(State()), taskId)
    {
      ghost var s0 := State();
      RemoveTaskUI(taskId);
      activeTasks := activeTasks - {taskId};
      pendingRemovals := RemoveFirst(pendingRemovals, taskId);
      RetiredKeepsInv(s0, taskId);
    }

    /** The UI half of DelayedRemove: hide the entry, destroy its object and drop it. */
    method RemoveTaskUI(taskId: string)
      modifies this
      ensures activeTasks == old(activeTasks) && pendingRemovals == old(pendingRemovals)
      ensures uisCreated == old(uisCreated)
      ensures activeTaskUIs == old(activeTaskUIs) - {taskId}
      ensures uiLog == Retired(old(State()), taskId).log
    {
      if taskId in activeTaskUIs {
        var ui := activeTaskUIs[taskId];
        uiLog := uiLog + [Hide(ui), DestroyObject(ui)];
        activeTaskUIs := activeTaskUIs - {taskId};
      } else {
        assert activeTaskUIs == activeTaskUIs - {taskId};
      }
    }
  }
}
