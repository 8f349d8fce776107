/** The scene objects that feed the trigger family: CollectForTaskSimple.cs,
    TaskInteractable.cs, SimpleTaskInteractable.cs, InteractionListener.cs and
    the InteractConfig record of ITaskInteractable.cs. Scene searches
    (FindObjectsOfType) receive the scene's triggers as a sequence. */
module TaskInteraction {
  import opened Common
  import opened TaskTriggers

  /** InteractConfig: how an interactable behaves. */
  datatype InteractConfig = InteractConfig(
    canInteractMultipleTimes: bool,
    progressOnlyFirstTime: bool,
    destroyOnInteract: bool,
    progressPerInteract: int)

  /** A freshly constructed InteractConfig: one interaction, progress the first
      time only, the object kept, one unit per interaction. */
  function DefaultInteractConfig(): (r: InteractConfig)
    ensures !r.canInteractMultipleTimes && r.progressOnlyFirstTime
    ensures !r.destroyOnInteract && r.progressPerInteract == 1
  {
    InteractConfig(false, true, false, 1)
  }

  /** Where a trigger lookup lands: the serialized trigger, a scene trigger, or none. */
  datatype Target = Explicit | SceneAt(index: nat) | NoTarget

  /** The lookup every feeder performs: a serialized trigger wins; otherwise, when
      searching is on and the id is non-empty, the first scene trigger reporting
      that id; otherwise, with `autoFirst`, the first scene trigger. */
  function Lookup(hasExplicit: bool, search: bool, id: string, autoFirst: bool, ids: seq<string>): (r: Target)
    ensures r == Explicit <==> hasExplicit
    ensures r.SceneAt? ==> r.index < |ids|
    ensures r.SceneAt? && search && id != "" && id in ids ==>
              ids[r.index] == id && forall j :: 0 <= j < r.index ==> ids[j] != id
    ensures r.SceneAt? && !(search && id != "" && id in ids) ==> autoFirst && r.index == 0
    ensures r == NoTarget <==> !hasExplicit && !(search && id != "" && id in ids) && !(autoFirst && |ids| > 0)
  {
    if hasExplicit then Explicit
    else
      var k := if search && id != "" then IndexOf(ids, id) else -1;
      if k >= 0 then SceneAt(k)
      else if autoFirst && |ids| > 0 then SceneAt(0)
      else NoTarget
  }

  /** The ids the scene's triggers report, in scene order. */
  function Ids(scene: seq<TaskTrigger>): (r: seq<string>)
    reads set t | t in scene
    ensures |r| == |scene|
    ensures forall j :: 0 <= j < |scene| ==> r[j] == scene[j].CurrentId()
  {
    seq(|scene|, j requires 0 <= j < |scene| reads scene => scene[j].CurrentId())
  }

  /** The search loop over the scene: the index of the first trigger whose
      TaskId equals `id`, or -1. */
  method FindById(scene: seq<TaskTrigger>, id: string) returns (k: int)
    ensures k == IndexOf(Ids(scene), id)
  {
    var i := 0;
    while i < |scene|
      invariant 0 <= i <= |scene|
      invariant forall j :: 0 <= j < i ==> scene[j].CurrentId() != id
    {
      if scene[i].CurrentId() == id {
        FirstIndex(Ids(scene), id, i);
        return i;
      }
      i := i + 1;
    }
    k := -1;
  }

  /** An index holding x with no x before it is IndexOf's answer. */
  lemma FirstIndex<T>(s: seq<T>, x: T, k: nat)
    requires k < |s| && s[k] == x && forall j :: 0 <= j < k ==> s[j] != x
    ensures IndexOf(s, x) == k
  {
  }

  /** The trigger a lookup selects. */
  function Selected(t: Target, explicit: TaskTrigger?, scene: seq<TaskTrigger>): TaskTrigger?
    requires t.SceneAt? ==> t.index < |scene|
  {
    match t
    case Explicit => explicit
    case SceneAt(k) => scene[k]
    case NoTarget => null
  }

  /** No trigger appears twice in a scene search result. */
  ghost predicate Distinct(scene: seq<TaskTrigger>) {
    forall i, j :: 0 <= i < j < |scene| ==> scene[i] != scene[j]
  }

  /** FindObjectsOfType<InteractTaskTrigger> yields interaction triggers only. */
  predicate AllInteract(scene: seq<TaskTrigger>) {
    forall j :: 0 <= j < |scene| ==> scene[j].config.kind.InteractTask?
  }

  // ---------------------------------------------------------------
  // CollectForTaskSimple

  datatype CollectSettings = CollectSettings(
    customTaskId: string,
    autoFindTask: bool,
    canCollectMultipleTimes: bool,
    progressOnlyFirstTime: bool,
    destroyOnCollect: bool,
    progressPerCollect: int,
    requiredItemTag: string)

  /** InteractWith gets past its two early returns. */
  predicate CollectAccepted(st: CollectSettings, tag: string, isCollected: bool) {
    !(!st.canCollectMultipleTimes && isCollected)
    && !(st.requiredItemTag != "" && tag != st.requiredItemTag)
  }

  /** The private UpdateTaskProgress applies progress to the target. */
  predicate ProgressApplies(st: CollectSettings, isCollected: bool, target: Option<TriggerState>) {
    target.Some? && target.value.taskStarted && !target.value.taskCompleted
    && !(st.progressOnlyFirstTime && isCollected)
  }

  /** The trigger after `n` calls of its UpdateTaskProgress. */
  function ProgressTimes(c: TriggerConfig, s: TriggerState, n: nat): TriggerState
    decreases n
  {
    if n == 0 then s else ProgressUpdated(c, ProgressTimes(c, s, n - 1))
  }

  /** The iterations of `for (i = 0; i < n; i++)`. */
  function Iterations(n: int): (r: nat)
    ensures n > 0 ==> r == n
    ensures n <= 0 ==> r == 0
  {
    if n > 0 then n else 0
  }

  /** A collected object applies progress again only when both repeat collection
      is on and progress is not restricted to the first time. */
  lemma CollectedAgain(st: CollectSettings, tag: string, target: Option<TriggerState>)
    requires CollectAccepted(st, tag, true) && ProgressApplies(st, true, target)
    ensures st.canCollectMultipleTimes && !st.progressOnlyFirstTime
  {
  }

  /** A collect trigger takes everything uncounted on the first update, so
      further updates in the same batch change nothing. */
  lemma {:induction false} CollectTargetTakesOnce(c: TriggerConfig, s: TriggerState, n: nat)
    requires c.kind.CollectItem? && n >= 1
    ensures ProgressTimes(c, s, n) == ProgressUpdated(c, s)
  {
    if n > 1 {
      CollectTargetTakesOnce(c, s, n - 1);
      var s1 := ProgressUpdated(c, s);
      if s.taskStarted && !s.taskCompleted {
        assert s1.itemsCollected - s1.lastCollectedCount <= 0;
      }
      assert ProgressUpdated(c, s1) == s1;
    }
  }

  /** An interaction trigger that is running reports each of the n updates, each
      for its progressPerInteraction. */
  lemma {:induction false} InteractTargetReportsEach(c: TriggerConfig, s: TriggerState, n: nat)
    requires c.kind.InteractTask? && c.kind.progressPerInteraction > 0 && c.managerPresent
    requires s.taskStarted && !s.taskCompleted
    ensures var r := ProgressTimes(c, s, n);
      r.taskStarted && !r.taskCompleted
      && r.increments == s.increments + n * c.kind.progressPerInteraction
      && r.calls == s.calls + seq(n, _ => ProgressCall(IdOf(c, s), c.kind.progressPerInteraction))
      && IdOf(c, r) == IdOf(c, s)
  {
    var p := c.kind.progressPerInteraction;
    if n > 0 {
      InteractTargetReportsEach(c, s, n - 1);
      var r0 := ProgressTimes(c, s, n - 1);
      assert ProgressUpdated(c, r0).calls == r0.calls + [ProgressCall(IdOf(c, s), p)];
      assert seq(n, _ => ProgressCall(IdOf(c, s), p)) == seq(n - 1, _ => ProgressCall(IdOf(c, s), p)) + [ProgressCall(IdOf(c, s), p)];
    }
  }

  class CollectForTaskSimple {
    const taskTrigger: TaskTrigger?
    const settings: CollectSettings
    const tag: string
    /** An OutlineVisual or a Renderer is present to show the highlight. */
    const canHighlight: bool
    var targetTask: TaskTrigger?
    var isCollected: bool
    var destroyed: bool
    var highlighted: bool

    constructor (taskTrigger: TaskTrigger?, settings: CollectSettings, tag: string, canHighlight: bool)
      ensures this.taskTrigger == taskTrigger && this.settings == settings
      ensures this.tag == tag && this.canHighlight == canHighlight
      ensures targetTask == null && !isCollected && !destroyed && !highlighted
    {
      this.taskTrigger := taskTrigger;
      this.settings := settings;
      this.tag := tag;
      this.canHighlight := canHighlight;
      targetTask := null;
      isCollected := false;
      destroyed := false;
      highlighted := false;
    }

    /** Start's FindTargetTask: the serialized trigger, else the first id match,
        else (with autoFindTask) the first trigger in the scene. */
    method FindTargetTask(scene: seq<TaskTrigger>)
      requires targetTask == null
      modifies this
      ensures isCollected == old(isCollected) && destroyed == old(destroyed) && highlighted == old(highlighted)
      ensures var t := old(Lookup(taskTrigger != null, true, settings.customTaskId, settings.autoFindTask, Ids(scene)));
              targetTask == Selected(t, taskTrigger, scene)
    {
      if taskTrigger != null {
        targetTask := taskTrigger;
        return;
      }
      if settings.customTaskId != "" {
        var k := FindById(scene, settings.customTaskId);
        if k >= 0 {
          targetTask := scene[k];
        }
      }
      if settings.autoFindTask && targetTask == null {
        if |scene| > 0 {
          targetTask := scene[0];
        }
      }
    }

    /** InteractWith: after the two early returns, progress is pushed into the
        target; only when it was applied is the object marked collected and,
        if configured, destroyed. */
    method InteractWith()
      modifies this, targetTask
      ensures targetTask == old(targetTask) && highlighted == old(highlighted)
      ensures
        var applied := CollectAccepted(settings, tag, old(isCollected))
          && ProgressApplies(settings, old(isCollected), if targetTask == null then None else Some(old(targetTask.State())));
        isCollected == (old(isCollected) || applied)
        && destroyed == (old(destroyed) || (applied && settings.destroyOnCollect))
        && (targetTask != null ==>
              targetTask.State() ==
                if applied then ProgressTimes(targetTask.config, old(targetTask.State()), Iterations(settings.progressPerCollect))
                else old(targetTask.State()))
    {
      if !settings.canCollectMultipleTimes && isCollected {
        return;
      }
      if settings.requiredItemTag != "" && tag != settings.requiredItemTag {
        return;
      }
      var progressUpdated := UpdateTaskProgress();
      if progressUpdated {
        isCollected := true;
        if settings.destroyOnCollect {
          destroyed := true;
        }
      }
    }

    /** The private UpdateTaskProgress: the target's flags are read directly and
        its UpdateTaskProgress is invoked progressPerCollect times. */
    method UpdateTaskProgress() returns (applied: bool)
      modifies targetTask
      ensures applied == ProgressApplies(settings, isCollected, if targetTask == null then None else Some(old(targetTask.State())))
      ensures targetTask != null ==>
        targetTask.State() ==
          if applied then ProgressTimes(targetTask.config, old(targetTask.State()), Iterations(settings.progressPerCollect))
          else old(targetTask.State())
    {
      if targetTask == null {
        return false;
      }
      if !targetTask.taskStarted {
        return false;
      }
      if targetTask.taskCompleted {
        return false;
      }
      if settings.progressOnlyFirstTime && isCollected {
        return false;
      }
      var target := targetTask;
      ghost var s0 := target.State();
      var n := Iterations(settings.progressPerCollect);
      for i := 0 to n
        invariant target.State() == ProgressTimes(target.config, s0, i)
      {
        target.UpdateTaskProgress();
      }
      return true;
    }

    /** Select highlights the object unless it is collected and cannot be collected again. */
    method Select()
      modifies this
      ensures highlighted == (old(highlighted) || (canHighlight && !(!settings.canCollectMultipleTimes && isCollected)))
      ensures targetTask == old(targetTask) && isCollected == old(isCollected) && destroyed == old(destroyed)
    {
      if !settings.canCollectMultipleTimes && isCollected {
        return;
      }
      if canHighlight {
        highlighted := true;
      }
    }

    method Deselect()
      modifies this
      ensures highlighted == (old(highlighted) && !canHighlight)
      ensures targetTask == old(targetTask) && isCollected == old(isCollected) && destroyed == old(destroyed)
    {
      if canHighlight {
        highlighted := false;
      }
    }

    /** The linked target's id, otherwise the configured id. */
    function GetTaskId(): (id: string)
      reads this, targetTask
      ensures targetTask != null ==> id == targetTask.CurrentId()
      ensures targetTask == null ==> id == settings.customTaskId
    {
      if targetTask != null then targetTask.CurrentId() else settings.customTaskId
    }
  }

  // ---------------------------------------------------------------
  // TaskInteractable and SimpleTaskInteractable

  /** A call of the two-argument OnObjectInteracted(gameObject, config), which
      the trigger does not define: recorded, not executed. */
  datatype Notification = Notification(trigger: TaskTrigger, objectId: nat, config: Option<InteractConfig>)

  /** The notifications one TriggerTask sends: to the serialized trigger, else to
      the first trigger whose id equals customTaskId, else none. */
  function TriggerNotifications(explicit: TaskTrigger?, customTaskId: string, scene: seq<TaskTrigger>,
                                objectId: nat, config: Option<InteractConfig>): (r: seq<Notification>)
    reads set t | t in scene
    ensures |r| <= 1
    ensures explicit != null ==> r == [Notification(explicit, objectId, config)]
    ensures explicit == null && customTaskId != "" && customTaskId in Ids(scene) ==>
      |r| == 1 && r[0].trigger in scene && r[0].trigger.CurrentId() == customTaskId
    ensures r == [] <==> explicit == null && (customTaskId == "" || customTaskId !in Ids(scene))
  {
    match Lookup(explicit != null, true, customTaskId, false, Ids(scene))
    case Explicit => [Notification(explicit, objectId, config)]
    case SceneAt(k) => [Notification(scene[k], objectId, config)]
    case NoTarget => []
  }

  class TaskInteractable {
    const taskTrigger: TaskTrigger?
    const customTaskId: string
    /** The four serialized interaction settings. */
    const settings: InteractConfig
    const objectId: nat
    var config: Option<InteractConfig>
    var hasInteracted: bool
    var destroyed: bool
    var notifications: seq<Notification>

    constructor (taskTrigger: TaskTrigger?, customTaskId: string, settings: InteractConfig, objectId: nat)
      ensures this.taskTrigger == taskTrigger && this.customTaskId == customTaskId
      ensures this.settings == settings && this.objectId == objectId
      ensures config == None && !hasInteracted && !destroyed && notifications == []
    {
      this.taskTrigger := taskTrigger;
      this.customTaskId := customTaskId;
      this.settings := settings;
      this.objectId := objectId;
      config := None;
      hasInteracted := false;
      destroyed := false;
      notifications := [];
    }

    /** Awake builds the config from the serialized settings; GetInteractConfig
        then hands out that config. */
    method Awake()
      modifies this
      ensures config == Some(settings) && GetInteractConfig() == Some(settings)
      ensures hasInteracted == old(hasInteracted) && destroyed == old(destroyed) && notifications == old(notifications)
    {
      config := Some(InteractConfig(settings.canInteractMultipleTimes, settings.progressOnlyFirstTime,
                                    settings.destroyOnInteract, settings.progressPerInteract));
    }

    method InteractWith(scene: seq<TaskTrigger>)
      modifies this
      ensures config == old(config)
      ensures !settings.canInteractMultipleTimes && old(hasInteracted) ==>
        hasInteracted && destroyed == old(destroyed) && notifications == old(notifications)
      ensures !(!settings.canInteractMultipleTimes && old(hasInteracted)) ==>
        hasInteracted
        && destroyed == (old(destroyed) || settings.destroyOnInteract)
        && notifications == old(notifications) + old(TriggerNotifications(taskTrigger, customTaskId, scene, objectId, config))
    {
      if !settings.canInteractMultipleTimes && hasInteracted {
        return;
      }
      TriggerTask(scene);
      hasInteracted := true;
      if settings.destroyOnInteract {
        destroyed := true;
      }
    }

    method TriggerTask(scene: seq<TaskTrigger>)
      modifies this
      ensures config == old(config) && hasInteracted == old(hasInteracted) && destroyed == old(destroyed)
      ensures notifications == old(notifications) + old(TriggerNotifications(taskTrigger, customTaskId, scene, objectId, config))
    {
      if taskTrigger != null {
        notifications := notifications + [Notification(taskTrigger, objectId, config)];
      } else if customTaskId != "" {
        var k := FindById(scene, customTaskId);
        if k >= 0 {
          notifications := notifications + [Notification(scene[k], objectId, config)];
        }
      }
    }

    /** GetTaskId prefers customTaskId, the reverse of TriggerTask's order, and is
        null when neither is set. */
    function GetTaskId(): (r: Option<string>)
      reads this, taskTrigger
      ensures customTaskId != "" ==> r == Some(customTaskId)
      ensures customTaskId == "" && taskTrigger != null ==> r == Some(taskTrigger.CurrentId())
      ensures r == None <==> customTaskId == "" && taskTrigger == null
    {
      if customTaskId != "" then Some(customTaskId)
      else if taskTrigger != null then Some(taskTrigger.CurrentId())
      else None
    }

    function GetInteractConfig(): Option<InteractConfig>
      reads this
    {
      config
    }
  }

  /** An interactable left at the InteractConfig defaults and linked to a trigger
      reports its first interaction only: a second one is ignored and the object
      stays in the scene. */
  method DefaultConfigReportsOnce(trigger: TaskTrigger, objectId: nat, scene: seq<TaskTrigger>)
    returns (item: TaskInteractable)
    ensures item.notifications == [Notification(trigger, objectId, Some(DefaultInteractConfig()))]
    ensures item.hasInteracted && !item.destroyed
  {
    item := new TaskInteractable(trigger, "", DefaultInteractConfig(), objectId);
    item.Awake();
    item.InteractWith(scene);
    item.InteractWith(scene);
  }

  class SimpleTaskInteractable {
    const taskTrigger: TaskTrigger?
    const customTaskId: string
    const settings: InteractConfig
    const objectId: nat
    var config: Option<InteractConfig>
    var hasInteracted: bool
    var destroyed: bool
    var notifications: seq<Notification>

    constructor (taskTrigger: TaskTrigger?, customTaskId: string, settings: InteractConfig, objectId: nat)
      ensures this.taskTrigger == taskTrigger && this.customTaskId == customTaskId
      ensures this.settings == settings && this.objectId == objectId
      ensures config == None && !hasInteracted && !destroyed && notifications == []
    {
      this.taskTrigger := taskTrigger;
      this.customTaskId := customTaskId;
      this.settings := settings;
      this.objectId := objectId;
      config := None;
      hasInteracted := false;
      destroyed := false;
      notifications := [];
    }

    method Awake()
      modifies this
      ensures config == Some(settings)
      ensures hasInteracted == old(hasInteracted) && destroyed == old(destroyed) && notifications == old(notifications)
    {
      config := Some(InteractConfig(settings.canInteractMultipleTimes, settings.progressOnlyFirstTime,
                                    settings.destroyOnInteract, settings.progressPerInteract));
    }

    method OnPlayerInteract(scene: seq<TaskTrigger>)
      modifies this
      ensures config == old(config)
      ensures !settings.canInteractMultipleTimes && old(hasInteracted) ==>
        hasInteracted && destroyed == old(destroyed) && notifications == old(notifications)
      ensures !(!settings.canInteractMultipleTimes && old(hasInteracted)) ==>
        hasInteracted
        && destroyed == (old(destroyed) || settings.destroyOnInteract)
        && notifications == old(notifications) + old(TriggerNotifications(taskTrigger, customTaskId, scene, objectId, config))
    {
      if !settings.canInteractMultipleTimes && hasInteracted {
        return;
      }
      TriggerTask(scene);
      hasInteracted := true;
      if settings.destroyOnInteract {
        destroyed := true;
      }
    }

    method TriggerTask(scene: seq<TaskTrigger>)
      modifies this
      ensures config == old(config) && hasInteracted == old(hasInteracted) && destroyed == old(destroyed)
      ensures notifications == old(notifications) + old(TriggerNotifications(taskTrigger, customTaskId, scene, objectId, config))
    {
      if taskTrigger != null {
        notifications := notifications + [Notification(taskTrigger, objectId, config)];
      } else if customTaskId != "" {
        var k := FindById(scene, customTaskId);
        if k >= 0 {
          notifications := notifications + [Notification(scene[k], objectId, config)];
        }
      }
    }
  }

  // ---------------------------------------------------------------
  // InteractionListener

  /** The broadcast loop: every trigger in the scene receives the object once. */
  method Broadcast(scene: seq<TaskTrigger>, obj: SceneObject)
    requires AllInteract(scene) && Distinct(scene)
    modifies set t | t in scene
    ensures forall j :: 0 <= j < |scene| ==>
      scene[j].State() == Interacted(scene[j].config, old(scene[j].State()), Some(obj))
  {
    for i := 0 to |scene|
      invariant forall j :: 0 <= j < |scene| ==> (scene[j].State() ==
        if j < i then Interacted(scene[j].config, old(scene[j].State()), Some(obj)) else old(scene[j].State()))
    {
      scene[i].OnObjectInteracted(Some(obj));
    }
  }

  class InteractionListener {
    const taskTriggerId: string
    const autoFindTrigger: bool
    const specificTrigger: TaskTrigger?
    /** The listener's own game object. */
    const self: SceneObject
    var taskTrigger: TaskTrigger?

    /** The linked trigger, when there is one, is an interaction trigger. */
    ghost predicate Valid()
      reads this
    {
      taskTrigger != null ==> taskTrigger.config.kind.InteractTask?
    }

    constructor (taskTriggerId: string, autoFindTrigger: bool, specificTrigger: TaskTrigger?, self: SceneObject)
      ensures this.taskTriggerId == taskTriggerId && this.autoFindTrigger == autoFindTrigger
      ensures this.specificTrigger == specificTrigger && this.self == self
      ensures taskTrigger == null && Valid()
    {
      this.taskTriggerId := taskTriggerId;
      this.autoFindTrigger := autoFindTrigger;
      this.specificTrigger := specificTrigger;
      this.self := self;
      taskTrigger := null;
    }

    /** Start's FindTaskTrigger: the serialized trigger, else (when searching is
        on and an id is set) the first id match. */
    method FindTaskTrigger(scene: seq<TaskTrigger>)
      requires taskTrigger == null && AllInteract(scene)
      requires specificTrigger != null ==> specificTrigger.config.kind.InteractTask?
      modifies this
      ensures Valid()
      ensures var t := old(Lookup(specificTrigger != null, autoFindTrigger, taskTriggerId, false, Ids(scene)));
              taskTrigger == Selected(t, specificTrigger, scene)
    {
      if specificTrigger != null {
        taskTrigger := specificTrigger;
        return;
      }
      if autoFindTrigger && taskTriggerId != "" {
        var k := FindById(scene, taskTriggerId);
        if k >= 0 {
          taskTrigger := scene[k];
        }
      }
    }

    /** OnInteracted: only the linked trigger hears of the interaction; without
        one, every trigger in the scene does. */
    method OnInteracted(scene: seq<TaskTrigger>)
      requires Valid() && AllInteract(scene) && Distinct(scene)
      modifies taskTrigger, set t | t in scene
      ensures taskTrigger == old(taskTrigger)
      ensures taskTrigger != null ==>
        taskTrigger.State() == Interacted(taskTrigger.config, old(taskTrigger.State()), Some(self))
        && forall j :: 0 <= j < |scene| && scene[j] != taskTrigger ==> scene[j].State() == old(scene[j].State())
      ensures taskTrigger == null ==> forall j :: 0 <= j < |scene| ==>
        scene[j].State() == Interacted(scene[j].config, old(scene[j].State()), Some(self))
    {
      if taskTrigger != null {
        taskTrigger.OnObjectInteracted(Some(self));
      } else {
        Broadcast(scene, self);
      }
    }
  }
}
