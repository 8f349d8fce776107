/** BaseTaskTrigger.cs and its three variants (AreaEnterTrigger.cs,
    CollectItemTrigger.cs, InteractTaskTrigger.cs): scene components that turn
    stimuli into AddTask / UpdateTaskProgress calls on the task manager.
    The variants share one class whose `kind` says which overrides apply. */
module TaskTriggers {
  import opened Common
  import opened Text
  import TaskManagement
  import TaskRecords

  /** A collider reaching OnTriggerEnter/Exit: an object id and its tag. */
  datatype Collider = Collider(id: nat, tag: string)

  /** A game object passed to OnObjectInteracted. */
  datatype SceneObject = SceneObject(id: nat, name: string, tag: string)

  /** The variant of the trigger with its serialized settings. */
  datatype TriggerKind =
    | AreaEnter
    | CollectItem(itemTag: string)
    | InteractTask(targetTag: string, targetObjectName: string, triggerOnce: bool, progressPerInteraction: int)

  /** The serialized task settings, the id the GUID generator would hand out,
      and whether a TaskManager instance exists. */
  datatype TriggerConfig = TriggerConfig(
    kind: TriggerKind,
    taskName: string,
    taskNumber: string,
    targetCount: int,
    description: string,
    freshId: string,
    managerPresent: bool)

  /** A generated GUID string is never empty. */
  predicate WellConfigured(c: TriggerConfig) {
    c.freshId != ""
  }

  /** A call made on TaskManager.Instance. */
  datatype ManagerCall =
    | AddTaskCall(taskId: string, taskName: string, targetCount: int, description: string, taskNumber: string)
    | ProgressCall(taskId: string, amount: int)

  /** The mutable fields of a trigger. `increments` counts calls of the
      IncrementProgress hook; `destroyed` lists the collected objects destroyed. */
  datatype TriggerState = TriggerState(
    taskId: string,
    taskStarted: bool,
    taskCompleted: bool,
    calls: seq<ManagerCall>,
    increments: nat,
    playerInArea: bool,
    areaEntered: bool,
    itemsCollected: int,
    lastCollectedCount: int,
    destroyed: seq<nat>,
    interactionCount: int,
    hasTriggered: bool)

  /** A trigger as the scene loads it, with its serialized task id. */
  function Initial(taskId: string): TriggerState {
    TriggerState(taskId, false, false, [], 0, false, false, 0, 0, [], 0, false)
  }

  /** What the TaskId getter returns. */
  function IdOf(c: TriggerConfig, s: TriggerState): (id: string)
    ensures s.taskId != "" ==> id == s.taskId
    ensures WellConfigured(c) ==> id != ""
  {
    if s.taskId == "" then c.freshId else s.taskId
  }

  /** The state after reading TaskId (which stores a generated id) or after Start;
      storing the id never changes what a later read reports. */
  function WithId(c: TriggerConfig, s: TriggerState): (r: TriggerState)
    ensures IdOf(c, r) == IdOf(c, s)
  {
    s.(taskId := IdOf(c, s))
  }

  /** CheckTriggerCondition of each variant. */
  function Condition(c: TriggerConfig, s: TriggerState): bool {
    match c.kind
    case AreaEnter => s.playerInArea && !s.areaEntered
    case CollectItem(_) => false
    case InteractTask(_, _, _, _) => false
  }

  /** GetProgressAmount of each variant: the amount and the state it leaves. */
  function AmountTaken(c: TriggerConfig, s: TriggerState): (int, TriggerState) {
    match c.kind
    case AreaEnter => (1, s)
    case CollectItem(_) =>
      var d := s.itemsCollected - s.lastCollectedCount;
      (d, if d > 0 then s.(lastCollectedCount := s.itemsCollected) else s)
    case InteractTask(_, _, _, p) => (p, s)
  }

  /** StartTask. */
  function TaskStarted(c: TriggerConfig, s: TriggerState): TriggerState {
    var s1 := s.(taskStarted := true);
    if c.managerPresent then
      var s2 := WithId(c, s1);
      s2.(calls := s2.calls + [AddTaskCall(s2.taskId, c.taskName, c.targetCount, c.description, c.taskNumber)])
    else s1
  }

  /** The base UpdateTaskProgress. */
  function BaseProgressed(c: TriggerConfig, s: TriggerState): TriggerState {
    if s.taskStarted && !s.taskCompleted then
      var (n, s1) := AmountTaken(c, s);
      if n > 0 then
        var s2 := s1.(increments := s1.increments + n);
        if c.managerPresent then
          var s3 := WithId(c, s2);
          s3.(calls := s3.calls + [ProgressCall(s3.taskId, n)])
        else s2
      else s1
    else s
  }

  /** UpdateTaskProgress as dispatched: AreaEnter overrides it. */
  function ProgressUpdated(c: TriggerConfig, s: TriggerState): TriggerState {
    match c.kind
    case AreaEnter =>
      if Condition(c, s) then BaseProgressed(c, s).(areaEntered := true) else s
    case CollectItem(_) => BaseProgressed(c, s)
    case InteractTask(_, _, _, _) => BaseProgressed(c, s)
  }

  /** One Update frame. */
  function Ticked(c: TriggerConfig, s: TriggerState): TriggerState {
    if !s.taskCompleted && Condition(c, s) then
      if !s.taskStarted then TaskStarted(c, s) else ProgressUpdated(c, s)
    else s
  }

  /** OnTaskCompleted. */
  function Completed(s: TriggerState): TriggerState {
    s.(taskCompleted := true)
  }

  /** OnTriggerEnter of each variant (InteractTask has none). */
  function Entered(c: TriggerConfig, s: TriggerState, other: Collider): TriggerState {
    match c.kind
    case AreaEnter =>
      if other.tag == "Player" then s.(playerInArea := true) else s
    case CollectItem(itemTag) =>
      if other.tag == itemTag then
        var s2 := Counted(c, s);
        s2.(destroyed := s2.destroyed + [other.id])
      else s
    case InteractTask(_, _, _, _) => s
  }

  /** CollectItemTrigger.OnTriggerEnter for a tagged item, before the destroy:
      count it, then start the task, or report progress and test for completion. */
  function Counted(c: TriggerConfig, s: TriggerState): TriggerState
    requires c.kind.CollectItem?
  {
    var s1 := s.(itemsCollected := s.itemsCollected + 1);
    if !s1.taskStarted then TaskStarted(c, s1)
    else if !s1.taskCompleted then
      var s3 := ProgressUpdated(c, s1);
      if s3.itemsCollected >= c.targetCount then Completed(s3) else s3
    else s1
  }

  /** OnTriggerExit (only AreaEnter has one). */
  function Exited(c: TriggerConfig, s: TriggerState, other: Collider): TriggerState {
    match c.kind
    case AreaEnter =>
      if other.tag == "Player" then s.(playerInArea := false) else s
    case CollectItem(_) => s
    case InteractTask(_, _, _, _) => s
  }

  /** IsTargetObject: a present object whose name contains the wanted name
      (when one is set) or that carries the wanted tag (when one is set). */
  function IsTarget(targetTag: string, targetObjectName: string, obj: Option<SceneObject>): (r: bool)
    ensures r <==> obj.Some? &&
                   ((targetObjectName != "" && Contains(obj.value.name, targetObjectName))
                    || (targetTag != "" && obj.value.tag == targetTag))
  {
    if obj.None? then false
    else if targetObjectName != "" && (obj.value.name == targetObjectName || Contains(obj.value.name, targetObjectName)) then
      ContainsSelf(targetObjectName);
      true
    else if targetTag != "" && obj.value.tag == targetTag then true
    else false
  }

  /** OnObjectInteracted of InteractTaskTrigger. */
  function Interacted(c: TriggerConfig, s: TriggerState, obj: Option<SceneObject>): TriggerState
    requires c.kind.InteractTask?
  {
    if s.taskCompleted then s
    else if c.kind.triggerOnce && s.hasTriggered then s
    else if IsTarget(c.kind.targetTag, c.kind.targetObjectName, obj) then
      var s1 := s.(interactionCount := s.interactionCount + 1, hasTriggered := true);
      var s2 := if !s1.taskStarted then TaskStarted(c, s1) else ProgressUpdated(c, s1);
      if s2.interactionCount >= c.targetCount && !s2.taskCompleted then Completed(s2) else s2
    else s
  }

  /** Everything the scene can do to a trigger. */
  datatype Stimulus =
    | BeginPlay
    | Tick
    | TriggerEnter(other: Collider)
    | TriggerExit(other: Collider)
    | ObjectInteracted(obj: Option<SceneObject>)

  /** The trigger after one stimulus; only InteractTaskTrigger receives interactions. */
  function Step(c: TriggerConfig, s: TriggerState, e: Stimulus): TriggerState {
    match e
    case BeginPlay => WithId(c, s)
    case Tick => Ticked(c, s)
    case TriggerEnter(other) => Entered(c, s, other)
    case TriggerExit(other) => Exited(c, s, other)
    case ObjectInteracted(obj) => if c.kind.InteractTask? then Interacted(c, s, obj) else s
  }

  /** The trigger after a sequence of stimuli. */
  function Run(c: TriggerConfig, s: TriggerState, es: seq<Stimulus>): TriggerState
    decreases |es|
  {
    if es == [] then s else Run(c, Step(c, s, es[0]), es[1..])
  }

  /** The total amount reported through UpdateTaskProgress calls. */
  function Reported(calls: seq<ManagerCall>): int
    decreases |calls|
  {
    if calls == [] then 0
    else
      var last := calls[|calls| - 1];
      Reported(calls[..|calls| - 1]) + (if last.ProgressCall? then last.amount else 0)
  }

  lemma ReportedSnoc(calls: seq<ManagerCall>, x: ManagerCall)
    ensures Reported(calls + [x]) == Reported(calls) + (if x.ProgressCall? then x.amount else 0)
  {
    assert (calls + [x])[..|calls|] == calls;
  }

  /** What every reachable trigger satisfies. */
  ghost predicate Inv(c: TriggerConfig, s: TriggerState) {
    (s.taskCompleted ==> s.taskStarted)
    && (s.calls != [] ==> s.taskStarted)
    && (c.kind.CollectItem? ==>
          0 <= s.lastCollectedCount <= s.itemsCollected
          && (!s.taskStarted ==> s.itemsCollected == 0)
          && (c.managerPresent ==> Reported(s.calls) == s.lastCollectedCount))
    && (c.kind.InteractTask? ==>
          0 <= s.interactionCount
          && (!s.hasTriggered ==> s.interactionCount == 0)
          && (c.kind.triggerOnce ==> s.interactionCount <= 1))
  }

  lemma InitialInv(c: TriggerConfig, taskId: string)
    ensures Inv(c, Initial(taskId))
  {
  }

  // ---------------------------------------------------------------
  // BaseTaskTrigger

  /** Once the id is set it never changes; an empty id becomes the generated one or stays empty. */
  lemma IdIsStable(c: TriggerConfig, s: TriggerState, e: Stimulus)
    ensures IdFollows(c, s, Step(c, s, e))
    ensures e.BeginPlay? ==> Step(c, s, e).taskId == IdOf(c, s)
  {
    match e {
      case BeginPlay =>
      case TriggerExit(_) =>
      case Tick => ReportingKeepsId(c, s);
      case TriggerEnter(other) => EnteredKeepsId(c, s, other);
      case ObjectInteracted(obj) =>
        if c.kind.InteractTask? {
          InteractedKeepsId(c, s, obj);
        }
    }
  }

  lemma EnteredKeepsId(c: TriggerConfig, s: TriggerState, other: Collider)
    ensures IdFollows(c, s, Entered(c, s, other))
  {
    if c.kind.CollectItem? && other.tag == c.kind.itemTag {
      ReportingKeepsId(c, s.(itemsCollected := s.itemsCollected + 1));
    }
  }

  lemma InteractedKeepsId(c: TriggerConfig, s: TriggerState, obj: Option<SceneObject>)
    requires c.kind.InteractTask?
    ensures IdFollows(c, s, Interacted(c, s, obj))
  {
    ReportingKeepsId(c, s.(interactionCount := s.interactionCount + 1, hasTriggered := true));
  }

  /** s' holds the same non-empty id as s, or s had none and s' has none or the generated one. */
  predicate IdFollows(c: TriggerConfig, s: TriggerState, s': TriggerState) {
    if s.taskId != "" then s'.taskId == s.taskId else s'.taskId == "" || s'.taskId == c.freshId
  }

  lemma ReportingKeepsId(c: TriggerConfig, s: TriggerState)
    ensures IdFollows(c, s, TaskStarted(c, s))
    ensures IdFollows(c, s, ProgressUpdated(c, s))
  {
    assert IdFollows(c, s, BaseProgressed(c, s));
  }

  /** Update does nothing on a completed trigger or while its condition is false,
      starts the task on the first qualifying frame and reports progress afterwards. */
  lemma TickGating(c: TriggerConfig, s: TriggerState)
    ensures s.taskCompleted || !Condition(c, s) ==> Ticked(c, s) == s
    ensures !s.taskCompleted && Condition(c, s) && !s.taskStarted ==> Ticked(c, s) == TaskStarted(c, s)
    ensures !s.taskCompleted && Condition(c, s) && s.taskStarted ==> Ticked(c, s) == ProgressUpdated(c, s)
  {
  }

  /** StartTask always marks the task started and calls AddTask, with the trigger's
      settings, exactly when a manager is present. */
  lemma StartTaskEffect(c: TriggerConfig, s: TriggerState)
    ensures TaskStarted(c, s).taskStarted
    ensures !c.managerPresent ==> TaskStarted(c, s) == s.(taskStarted := true)
    ensures c.managerPresent ==>
      TaskStarted(c, s) == s.(taskStarted := true, taskId := IdOf(c, s),
                              calls := s.calls + [AddTaskCall(IdOf(c, s), c.taskName, c.targetCount, c.description, c.taskNumber)])
  {
  }

  /** The base progress update is inert unless started and open, and for a
      positive amount n runs the hook n times and reports n once. */
  lemma BaseProgressEffect(c: TriggerConfig, s: TriggerState)
    ensures !s.taskStarted || s.taskCompleted ==> BaseProgressed(c, s) == s
    ensures s.taskStarted && !s.taskCompleted && AmountTaken(c, s).0 <= 0 ==>
      BaseProgressed(c, s) == AmountTaken(c, s).1
    ensures s.taskStarted && !s.taskCompleted && AmountTaken(c, s).0 > 0 ==>
      var (n, s1) := AmountTaken(c, s);
      BaseProgressed(c, s).increments == s.increments + n
      && BaseProgressed(c, s).calls ==
           s.calls + (if c.managerPresent then [ProgressCall(IdOf(c, s), n)] else [])
  {
  }

  /** Nothing resets taskStarted or taskCompleted, and the call log only grows. */
  lemma FlagsLatch(c: TriggerConfig, s: TriggerState, e: Stimulus)
    ensures s.taskStarted ==> Step(c, s, e).taskStarted
    ensures s.taskCompleted ==> Step(c, s, e).taskCompleted
    ensures s.calls <= Step(c, s, e).calls
    ensures s.destroyed <= Step(c, s, e).destroyed
  {
    match e {
      case BeginPlay =>
      case Tick =>
      case TriggerExit(_) =>
      case TriggerEnter(other) => EnteredLatches(c, s, other);
      case ObjectInteracted(obj) =>
        if c.kind.InteractTask? {
          InteractedLatches(c, s, obj);
        }
    }
  }

  lemma EnteredLatches(c: TriggerConfig, s: TriggerState, other: Collider)
    ensures s.taskStarted ==> Entered(c, s, other).taskStarted
    ensures s.taskCompleted ==> Entered(c, s, other).taskCompleted
    ensures s.calls <= Entered(c, s, other).calls
    ensures s.destroyed <= Entered(c, s, other).destroyed
  {
    if c.kind.CollectItem? && other.tag == c.kind.itemTag {
      CountedLatches(c, s);
    }
  }

  lemma CountedLatches(c: TriggerConfig, s: TriggerState)
    requires c.kind.CollectItem?
    ensures s.taskStarted ==> Counted(c, s).taskStarted
    ensures s.taskCompleted ==> Counted(c, s).taskCompleted
    ensures s.calls <= Counted(c, s).calls
    ensures s.destroyed == Counted(c, s).destroyed
  {
    var s1 := s.(itemsCollected := s.itemsCollected + 1);
    if !s1.taskStarted {
      StartLatches(c, s1);
    } else if !s1.taskCompleted {
      ProgressLatches(c, s1);
    }
  }

  lemma InteractedLatches(c: TriggerConfig, s: TriggerState, obj: Option<SceneObject>)
    requires c.kind.InteractTask?
    ensures s.taskStarted ==> Interacted(c, s, obj).taskStarted
    ensures s.taskCompleted ==> Interacted(c, s, obj).taskCompleted
    ensures s.calls <= Interacted(c, s, obj).calls
    ensures s.destroyed <= Interacted(c, s, obj).destroyed
  {
    if !s.taskCompleted && !(c.kind.triggerOnce && s.hasTriggered)
      && IsTarget(c.kind.targetTag, c.kind.targetObjectName, obj)
    {
      var s1 := s.(interactionCount := s.interactionCount + 1, hasTriggered := true);
      var s2 := if !s1.taskStarted then TaskStarted(c, s1) else ProgressUpdated(c, s1);
      StartLatches(c, s1);
      ProgressLatches(c, s1);
      assert Interacted(c, s, obj) == if s2.interactionCount >= c.targetCount && !s2.taskCompleted then Completed(s2) else s2;
    } else {
      assert Interacted(c, s, obj) == s;
    }
  }

  /** StartTask sets taskStarted and only appends to the call log. */
  lemma StartLatches(c: TriggerConfig, s: TriggerState)
    ensures TaskStarted(c, s).taskStarted && TaskStarted(c, s).taskCompleted == s.taskCompleted
    ensures s.calls <= TaskStarted(c, s).calls && TaskStarted(c, s).destroyed == s.destroyed
    ensures TaskStarted(c, s).interactionCount == s.interactionCount && TaskStarted(c, s).hasTriggered == s.hasTriggered
  {
  }

  /** UpdateTaskProgress keeps both flags and only appends to the call log. */
  lemma ProgressLatches(c: TriggerConfig, s: TriggerState)
    ensures ProgressUpdated(c, s).taskStarted == s.taskStarted
    ensures ProgressUpdated(c, s).taskCompleted == s.taskCompleted
    ensures s.calls <= ProgressUpdated(c, s).calls && ProgressUpdated(c, s).destroyed == s.destroyed
    ensures ProgressUpdated(c, s).interactionCount == s.interactionCount && ProgressUpdated(c, s).hasTriggered == s.hasTriggered
  {
    BaseLatches(c, s);
    if c.kind.AreaEnter? && Condition(c, s) {
      assert ProgressUpdated(c, s) == BaseProgressed(c, s).(areaEntered := true);
    }
  }

  lemma BaseLatches(c: TriggerConfig, s: TriggerState)
    ensures BaseProgressed(c, s).taskStarted == s.taskStarted
    ensures BaseProgressed(c, s).taskCompleted == s.taskCompleted
    ensures s.calls <= BaseProgressed(c, s).calls && BaseProgressed(c, s).destroyed == s.destroyed
    ensures BaseProgressed(c, s).interactionCount == s.interactionCount && BaseProgressed(c, s).hasTriggered == s.hasTriggered
  {
  }

  lemma StepKeepsInv(c: TriggerConfig, s: TriggerState, e: Stimulus)
    requires Inv(c, s)
    ensures Inv(c, Step(c, s, e))
  {
    match e {
      case BeginPlay =>
      case Tick => TickedKeepsInv(c, s);
      case TriggerExit(_) =>
      case TriggerEnter(other) => EnteredKeepsInv(c, s, other);
      case ObjectInteracted(obj) =>
        if c.kind.InteractTask? {
          InteractedKeepsInv(c, s, obj);
        }
    }
  }

  lemma TickedKeepsInv(c: TriggerConfig, s: TriggerState)
    requires Inv(c, s)
    ensures Inv(c, Ticked(c, s))
  {
    if !s.taskCompleted && Condition(c, s) {
      assert c.kind.AreaEnter?;
      if !s.taskStarted {
        StartLatches(c, s);
      } else {
        ProgressLatches(c, s);
      }
    }
  }

  lemma InteractedKeepsInv(c: TriggerConfig, s: TriggerState, obj: Option<SceneObject>)
    requires c.kind.InteractTask? && Inv(c, s)
    ensures Inv(c, Interacted(c, s, obj))
  {
    if !s.taskCompleted && !(c.kind.triggerOnce && s.hasTriggered)
      && IsTarget(c.kind.targetTag, c.kind.targetObjectName, obj)
    {
      var s1 := s.(interactionCount := s.interactionCount + 1, hasTriggered := true);
      var s2 := if !s1.taskStarted then TaskStarted(c, s1) else ProgressUpdated(c, s1);
      StartLatches(c, s1);
      ProgressLatches(c, s1);
      assert s2.interactionCount == s1.interactionCount && s2.hasTriggered && s2.taskStarted;
      assert Interacted(c, s, obj) == if s2.interactionCount >= c.targetCount && !s2.taskCompleted then Completed(s2) else s2;
    } else {
      assert Interacted(c, s, obj) == s;
    }
  }

  lemma EnteredKeepsInv(c: TriggerConfig, s: TriggerState, other: Collider)
    requires Inv(c, s)
    ensures Inv(c, Entered(c, s, other))
  {
    if c.kind.CollectItem? && other.tag == c.kind.itemTag {
      CountedKeepsInv(c, s);
    }
  }

  lemma CountedKeepsInv(c: TriggerConfig, s: TriggerState)
    requires c.kind.CollectItem? && Inv(c, s)
    ensures Inv(c, Counted(c, s))
  {
    var s1 := s.(itemsCollected := s.itemsCollected + 1);
    if !s1.taskStarted {
      FirstCountKeepsInv(c, s1);
      assert Counted(c, s) == TaskStarted(c, s1);
    } else if !s1.taskCompleted {
      LaterCountKeepsInv(c, s1);
      var s3 := ProgressUpdated(c, s1);
      assert Counted(c, s) == if s3.itemsCollected >= c.targetCount then Completed(s3) else s3;
    } else {
      assert Counted(c, s) == s1;
    }
  }

  lemma FirstCountKeepsInv(c: TriggerConfig, s1: TriggerState)
    requires c.kind.CollectItem? && !s1.taskStarted && !s1.taskCompleted && s1.calls == []
    requires s1.itemsCollected == 1 && s1.lastCollectedCount == 0
    ensures Inv(c, TaskStarted(c, s1))
  {
    if c.managerPresent {
      ReportedSnoc(s1.calls, AddTaskCall(IdOf(c, s1), c.taskName, c.targetCount, c.description, c.taskNumber));
    }
  }

  lemma LaterCountKeepsInv(c: TriggerConfig, s1: TriggerState)
    requires c.kind.CollectItem? && s1.taskStarted && !s1.taskCompleted
    requires 0 <= s1.lastCollectedCount < s1.itemsCollected
    requires c.managerPresent ==> Reported(s1.calls) == s1.lastCollectedCount
    ensures var s3 := ProgressUpdated(c, s1);
      Inv(c, s3) && Inv(c, Completed(s3))
  {
    var d := s1.itemsCollected - s1.lastCollectedCount;
    if c.managerPresent {
      ReportedSnoc(s1.calls, ProgressCall(IdOf(c, s1), d));
    }
  }

  lemma RunKeepsInv(c: TriggerConfig, s: TriggerState, es: seq<Stimulus>)
    requires Inv(c, s)
    ensures Inv(c, Run(c, s, es))
    decreases |es|
  {
    if es != [] {
      StepKeepsInv(c, s, es[0]);
      RunKeepsInv(c, Step(c, s, es[0]), es[1..]);
    }
  }

  // ---------------------------------------------------------------
  // AreaEnterTrigger

  /** The condition is exactly "player inside and area not yet entered"; the amount is always 1. */
  lemma AreaCondition(c: TriggerConfig, s: TriggerState)
    requires c.kind.AreaEnter?
    ensures Condition(c, s) <==> s.playerInArea && !s.areaEntered
    ensures AmountTaken(c, s) == (1, s)
  {
  }

  /** Only a "Player" collider moves playerInArea: entering sets it, leaving clears it. */
  lemma AreaPresence(c: TriggerConfig, s: TriggerState, other: Collider)
    requires c.kind.AreaEnter?
    ensures other.tag != "Player" ==> Entered(c, s, other) == s && Exited(c, s, other) == s
    ensures other.tag == "Player" ==> Entered(c, s, other) == s.(playerInArea := true)
    ensures other.tag == "Player" ==> Exited(c, s, other) == s.(playerInArea := false)
  {
  }

  /** Once the area is entered it stays entered and no further call reaches the manager. */
  lemma AreaEnteredIsFinal(c: TriggerConfig, s: TriggerState, e: Stimulus)
    requires c.kind.AreaEnter? && s.areaEntered
    ensures Step(c, s, e).areaEntered
    ensures Step(c, s, e).calls == s.calls
    ensures Step(c, s, e).increments == s.increments
  {
  }

  /** The area trigger never completes by itself. */
  lemma AreaNeverCompletes(c: TriggerConfig, s: TriggerState, es: seq<Stimulus>)
    requires c.kind.AreaEnter? && !s.taskCompleted
    ensures !Run(c, s, es).taskCompleted
    decreases |es|
  {
    if es != [] {
      AreaNeverCompletes(c, Step(c, s, es[0]), es[1..]);
    }
  }

  /** Player walks in: the first frame starts the task, the next reports +1 and
      closes the area; the manager then holds the task at its target of 1, completed. */
  lemma AreaScenario(c: TriggerConfig, player: Collider)
    requires c.kind.AreaEnter? && c.managerPresent && WellConfigured(c)
    requires player.tag == "Player" && c.targetCount == 1
    ensures
      var s := Run(c, Initial(""), [BeginPlay, TriggerEnter(player), Tick, Tick]);
      s.areaEntered && s.taskStarted && !s.taskCompleted
      && s.calls == [AddTaskCall(c.freshId, c.taskName, 1, c.description, c.taskNumber), ProgressCall(c.freshId, 1)]
      && var m := Applied(TaskManagement.ManagerState(map[], map[], [], [], 0), true, s.calls);
      c.freshId in m.tasks && m.tasks[c.freshId].currentCount == 1 && m.tasks[c.freshId].isCompleted
      && m.pending == [c.freshId]
  {
    var s0 := Initial("");
    var s1 := Step(c, s0, BeginPlay);
    var s2 := Step(c, s1, TriggerEnter(player));
    var s3 := Step(c, s2, Tick);
    var s4 := Step(c, s3, Tick);
    assert Run(c, s0, [BeginPlay, TriggerEnter(player), Tick, Tick]) == s4 by {
      assert Run(c, s4, []) == s4;
      assert [Tick][1..] == [];
      assert Run(c, s3, [Tick]) == s4;
      assert [Tick, Tick][1..] == [Tick];
      assert Run(c, s2, [Tick, Tick]) == s4;
      assert [TriggerEnter(player), Tick, Tick][1..] == [Tick, Tick];
      assert Run(c, s1, [TriggerEnter(player), Tick, Tick]) == s4;
      assert [BeginPlay, TriggerEnter(player), Tick, Tick][1..] == [TriggerEnter(player), Tick, Tick];
    }
    var call0 := AddTaskCall(c.freshId, c.taskName, 1, c.description, c.taskNumber);
    var call1 := ProgressCall(c.freshId, 1);
    var m0 := TaskManagement.ManagerState(map[], map[], [], [], 0);
    var m1 := Apply(m0, true, call0);
    var m2 := Apply(m1, true, call1);
    assert Applied(m0, true, [call0, call1]) == m2 by {
      assert Applied(m2, true, []) == m2;
      assert [call1][1..] == [];
      assert Applied(m1, true, [call1]) == m2;
      assert [call0, call1][1..] == [call1];
    }
  }

  // ---------------------------------------------------------------
  // The calls as the task manager receives them

  /** TaskManager's reaction to one call. */
  function Apply(m: TaskManagement.ManagerState, uiAvailable: bool, call: ManagerCall): TaskManagement.ManagerState {
    match call
    case AddTaskCall(id, name, target, desc, number) => TaskManagement.Added(m, uiAvailable, id, name, target, desc, number)
    case ProgressCall(id, amount) => TaskManagement.ProgressReported(m, id, amount)
  }

  function Applied(m: TaskManagement.ManagerState, uiAvailable: bool, calls: seq<ManagerCall>): TaskManagement.ManagerState
    decreases |calls|
  {
    if calls == [] then m else Applied(Apply(m, uiAvailable, calls[0]), uiAvailable, calls[1..])
  }

  /** Applying any call log keeps the manager's invariant. */
  lemma AppliedKeepsInv(m: TaskManagement.ManagerState, uiAvailable: bool, calls: seq<ManagerCall>)
    requires TaskManagement.Inv(m)
    ensures TaskManagement.Inv(Applied(m, uiAvailable, calls))
    decreases |calls|
  {
    if calls != [] {
      match calls[0] {
        case AddTaskCall(id, name, target, desc, number) =>
          TaskManagement.AddedKeepsInv(m, uiAvailable, id, name, target, desc, number);
        case ProgressCall(id, amount) =>
          TaskManagement.ProgressKeepsInv(m, id, amount);
      }
      AppliedKeepsInv(Apply(m, uiAvailable, calls[0]), uiAvailable, calls[1..]);
    }
  }

  // ---------------------------------------------------------------
  // CollectItemTrigger

  /** The base Update never advances a collect trigger. */
  lemma CollectIgnoresTicks(c: TriggerConfig, s: TriggerState)
    requires c.kind.CollectItem?
    ensures Ticked(c, s) == s
  {
  }

  /** The amount is the uncounted items; taking it catches the count up, so an
      immediate second call yields 0. */
  lemma CollectAmountCatchesUp(c: TriggerConfig, s: TriggerState)
    requires c.kind.CollectItem? && s.lastCollectedCount <= s.itemsCollected
    ensures AmountTaken(c, s).0 == s.itemsCollected - s.lastCollectedCount
    ensures AmountTaken(c, s).1 == s.(lastCollectedCount := s.itemsCollected)
    ensures AmountTaken(c, AmountTaken(c, s).1).0 == 0
  {
  }

  /** Only colliders with the item tag count, and every one of them is destroyed. */
  lemma CollectTagGate(c: TriggerConfig, s: TriggerState, other: Collider)
    requires c.kind.CollectItem?
    ensures other.tag != c.kind.itemTag ==> Entered(c, s, other) == s
    ensures other.tag == c.kind.itemTag ==>
      Entered(c, s, other).itemsCollected == s.itemsCollected + 1
      && Entered(c, s, other).destroyed == s.destroyed + [other.id]
  {
  }

  /** The first item only starts the task: it is not reported and never completes it. */
  lemma FirstItemOnlyStarts(c: TriggerConfig, s: TriggerState, item: Collider)
    requires c.kind.CollectItem? && Inv(c, s) && !s.taskStarted && item.tag == c.kind.itemTag
    ensures var s' := Entered(c, s, item);
      s'.taskStarted && !s'.taskCompleted && s'.itemsCollected == 1 && s'.lastCollectedCount == 0
      && s'.increments == s.increments
      && s'.calls == s.calls + (if c.managerPresent then [AddTaskCall(IdOf(c, s), c.taskName, c.targetCount, c.description, c.taskNumber)] else [])
  {
  }

  /** The next item reports everything uncounted, which after the first item is 2,
      and completes the trigger once the count reaches the target. */
  lemma LaterItemReports(c: TriggerConfig, s: TriggerState, item: Collider)
    requires c.kind.CollectItem? && Inv(c, s) && s.taskStarted && !s.taskCompleted
    requires item.tag == c.kind.itemTag
    ensures var n := s.itemsCollected + 1 - s.lastCollectedCount;
      var s' := Entered(c, s, item);
      n > 0 && s'.lastCollectedCount == s.itemsCollected + 1
      && s'.increments == s.increments + n
      && s'.calls == s.calls + (if c.managerPresent then [ProgressCall(IdOf(c, s), n)] else [])
      && (s'.taskCompleted <==> s.itemsCollected + 1 >= c.targetCount)
  {
  }

  /** After completion items are still counted and destroyed, but nothing is reported. */
  lemma CollectAfterCompletion(c: TriggerConfig, s: TriggerState, item: Collider)
    requires c.kind.CollectItem? && s.taskStarted && s.taskCompleted && item.tag == c.kind.itemTag
    ensures Entered(c, s, item) ==
      s.(itemsCollected := s.itemsCollected + 1, destroyed := s.destroyed + [item.id])
  {
  }

  /** With a manager present, the total reported equals the items the trigger has
      counted as progress, whatever happens. */
  lemma CollectReportsEveryItemOnce(c: TriggerConfig, taskId: string, es: seq<Stimulus>)
    requires c.kind.CollectItem? && c.managerPresent
    ensures Reported(Run(c, Initial(taskId), es).calls) == Run(c, Initial(taskId), es).lastCollectedCount
  {
    RunKeepsInv(c, Initial(taskId), es);
  }

  // ---------------------------------------------------------------
  // InteractTaskTrigger

  /** Progress comes only from interactions; the amount is progressPerInteraction. */
  lemma InteractSettings(c: TriggerConfig, s: TriggerState)
    requires c.kind.InteractTask?
    ensures Ticked(c, s) == s
    ensures AmountTaken(c, s) == (c.kind.progressPerInteraction, s)
  {
  }

  /** Interactions are ignored once completed, after the single counted one when
      triggerOnce is set, and for objects that do not match. */
  lemma InteractIgnored(c: TriggerConfig, s: TriggerState, obj: Option<SceneObject>)
    requires c.kind.InteractTask?
    requires s.taskCompleted || (c.kind.triggerOnce && s.hasTriggered)
             || !IsTarget(c.kind.targetTag, c.kind.targetObjectName, obj)
    ensures Interacted(c, s, obj) == s
  {
  }

  /** A counted interaction bumps the count, marks the trigger, starts the task the
      first time and reports progress afterwards, completing at the target. */
  lemma InteractCounted(c: TriggerConfig, s: TriggerState, obj: Option<SceneObject>)
    requires c.kind.InteractTask? && !s.taskCompleted && !(c.kind.triggerOnce && s.hasTriggered)
    requires IsTarget(c.kind.targetTag, c.kind.targetObjectName, obj)
    ensures var s' := Interacted(c, s, obj);
      var s1 := s.(interactionCount := s.interactionCount + 1, hasTriggered := true);
      s'.interactionCount == s.interactionCount + 1 && s'.hasTriggered
      && (!s.taskStarted ==> s'.calls == TaskStarted(c, s1).calls)
      && (s.taskStarted ==> s'.calls == BaseProgressed(c, s1).calls)
      && (s'.taskCompleted <==> s.interactionCount + 1 >= c.targetCount)
  {
  }

  /** With triggerOnce set, a target above 1 is never reached. */
  lemma TriggerOnceNeverCompletes(c: TriggerConfig, s: TriggerState, es: seq<Stimulus>)
    requires c.kind.InteractTask? && c.kind.triggerOnce && c.targetCount > 1
    requires Inv(c, s) && !s.taskCompleted
    ensures !Run(c, s, es).taskCompleted
    decreases |es|
  {
    if es != [] {
      StepKeepsInv(c, s, es[0]);
      TriggerOnceNeverCompletes(c, Step(c, s, es[0]), es[1..]);
    }
  }

  // ---------------------------------------------------------------

  /** One trigger component. */
  class TaskTrigger {
    const config: TriggerConfig
    var taskId: string
    var taskStarted: bool
    var taskCompleted: bool
    var calls: seq<ManagerCall>
    var increments: nat
    var playerInArea: bool
    var areaEntered: bool
    var itemsCollected: int
    var lastCollectedCount: int
    var destroyed: seq<nat>
    var interactionCount: int
    var hasTriggered: bool

    function State(): TriggerState
      reads this
    {
      TriggerState(taskId, taskStarted, taskCompleted, calls, increments, playerInArea, areaEntered,
                   itemsCollected, lastCollectedCount, destroyed, interactionCount, hasTriggered)
    }

    constructor (config: TriggerConfig, taskId: string)
      ensures this.config == config && State() == Initial(taskId)
    {
      this.config := config;
      this.taskId := taskId;
      taskStarted := false;
      taskCompleted := false;
      calls := [];
      increments := 0;
      playerInArea := false;
      areaEntered := false;
      itemsCollected := 0;
      lastCollectedCount := 0;
      destroyed := [];
      interactionCount := 0;
      hasTriggered := false;
    }

    /** Start: store a generated id if none was serialized. */
    method Start()
      modifies this
      ensures State() == Step(config, old(State()), BeginPlay)
    {
      if taskId == "" {
        taskId := config.freshId;
      }
    }

    /** The TaskId getter. */
    method TaskId() returns (id: string)
      modifies this
      ensures id == IdOf(config, old(State()))
      ensures State() == WithId(config, old(State()))
    {
      if taskId == "" {
        taskId := config.freshId;
      }
      id := taskId;
    }

    /** What the TaskId getter reports now; reading it stores nothing that changes this value. */
    function CurrentId(): string
      reads this
    {
      IdOf(config, State())
    }

    function CheckTriggerCondition(): bool
      reads this
    {
      Condition(config, State())
    }

    method GetProgressAmount() returns (amount: int)
      modifies this
      ensures (amount, State()) == AmountTaken(config, old(State()))
    {
      match config.kind {
        case AreaEnter => amount := 1;
        case CollectItem(_) =>
          amount := itemsCollected - lastCollectedCount;
          if amount > 0 {
            lastCollectedCount := itemsCollected;
          }
        case InteractTask(_, _, _, p) => amount := p;
      }
    }

    /** The IncrementProgress hook, which no variant overrides: counted only. */
    method IncrementProgress()
      modifies this
      ensures State() == old(State()).(increments := old(increments) + 1)
    {
      increments := increments + 1;
    }

    /** The loop of the base UpdateTaskProgress: IncrementProgress, n times. */
    method IncrementTimes(n: nat)
      modifies this
      ensures State() == old(State()).(increments := old(increments) + n)
    {
      ghost var s0 := State();
      for i := 0 to n
        invariant State() == s0.(increments := s0.increments + i)
      {
        IncrementProgress();
      }
    }

    method StartTask()
      modifies this
      ensures State() == TaskStarted(config, old(State()))
    {
      taskStarted := true;
      if config.managerPresent {
        var id := TaskId();
        calls := calls + [AddTaskCall(id, config.taskName, config.targetCount, config.description, config.taskNumber)];
      }
    }

    /** The base UpdateTaskProgress. */
    method BaseUpdateTaskProgress()
      modifies this
      ensures State() == BaseProgressed(config, old(State()))
    {
      if taskStarted && !taskCompleted {
        var amount := GetProgressAmount();
        if amount > 0 {
          Advance(amount);
        }
      }
    }

    /** The positive-amount part of the base UpdateTaskProgress: the hook runs
        `amount` times, then the manager hears of the amount once. */
    method Advance(amount: int)
      requires amount > 0
      modifies this
      ensures
        var s2 := old(State()).(increments := old(increments) + amount);
        State() == if config.managerPresent
                   then WithId(config, s2).(calls := old(calls) + [ProgressCall(IdOf(config, s2), amount)])
                   else s2
    {
      IncrementTimes(amount);
      if config.managerPresent {
        var id := TaskId();
        calls := calls + [ProgressCall(id, amount)];
      }
    }

    /** UpdateTaskProgress with AreaEnterTrigger's override. */
    method UpdateTaskProgress()
      modifies this
      ensures State() == ProgressUpdated(config, old(State()))
    {
      if config.kind.AreaEnter? {
        if CheckTriggerCondition() {
          BaseUpdateTaskProgress();
          areaEntered := true;
        }
      } else {
        BaseUpdateTaskProgress();
      }
    }

    method Update()
      modifies this
      ensures State() == Step(config, old(State()), Tick)
    {
      if !taskCompleted && CheckTriggerCondition() {
        if !taskStarted {
          StartTask();
        } else {
          UpdateTaskProgress();
        }
      }
    }

    method OnTaskCompleted()
      modifies this
      ensures State() == Completed(old(State()))
    {
      taskCompleted := true;
    }

    method OnTriggerEnter(other: Collider)
      modifies this
      ensures State() == Step(config, old(State()), TriggerEnter(other))
    {
      match config.kind {
        case AreaEnter =>
          if other.tag == "Player" {
            playerInArea := true;
          }
        case CollectItem(itemTag) =>
          if other.tag == itemTag {
            CollectOne();
            destroyed := destroyed + [other.id];
          }
        case InteractTask(_, _, _, _) =>
      }
    }

    /** The counting part of CollectItemTrigger.OnTriggerEnter, before the destroy. */
    method CollectOne()
      requires config.kind.CollectItem?
      modifies this
      ensures State() == Counted(config, old(State()))
    {
      itemsCollected := itemsCollected + 1;
      if !taskStarted {
        StartTask();
      } else if !taskCompleted {
        UpdateTaskProgress();
        if itemsCollected >= config.targetCount {
          OnTaskCompleted();
        }
      }
    }

    method OnTriggerExit(other: Collider)
      modifies this
      ensures State() == Step(config, old(State()), TriggerExit(other))
    {
      if config.kind.AreaEnter? && other.tag == "Player" {
        playerInArea := false;
      }
    }

    function IsTargetObject(obj: Option<SceneObject>): bool
      requires config.kind.InteractTask?
    {
      IsTarget(config.kind.targetTag, config.kind.targetObjectName, obj)
    }

    method OnObjectInteracted(obj: Option<SceneObject>)
      requires config.kind.InteractTask?
      modifies this
      ensures State() == Step(config, old(State()), ObjectInteracted(obj))
    {
      if taskCompleted {
        return;
      }
      if config.kind.triggerOnce && hasTriggered {
        return;
      }
      if IsTargetObject(obj) {
        interactionCount := interactionCount + 1;
        hasTriggered := true;
        if !taskStarted {
          StartTask();
        } else {
          UpdateTaskProgress();
        }
        if interactionCount >= config.targetCount && !taskCompleted {
          OnTaskCompleted();
        }
      }
    }
  }
}
