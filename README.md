# Fountain core in Dafny

A model of the gameplay bookkeeping of Fountain, a first-person Unity prototype.
Each C# script of the core becomes one Dafny module. Fields the script updates
in place are class fields, and each method states its new state through a pure
step function. Lemmas then prove what the game relies on about those functions.

The model covers four groups.

- **Event bus** (`EventBus`, `GameEvents`). `GameEventBus` maps each event type to an
  ordered list of handler ids.
  - Subscribe is idempotent, and a type whose list empties loses its entry.
  - Publish records one history entry, keeps at most the 50 most recent, and runs the
    handlers registered when it started from the last to the first.
  - A handler that throws does not stop the others. Handlers act on the bus through a
    `Reaction` parameter: return, throw, unsubscribe themselves, or subscribe another.
- **Tasks** (`TaskRecords`, `TaskManagement`, `TaskTriggers`, `TaskInteraction`).
  - `TaskData` is a counter clamped at its target, with a completion flag.
  - `TaskManager` keeps the active tasks and their on-screen entries. It signals
    completion once and retires the task in a later explicit step.
  - The trigger family (`BaseTaskTrigger` and its area, collect-item and interaction
    variants) is one class with a `kind` tag. It turns stimuli (frames, collider
    events, interactions) into AddTask/UpdateTaskProgress calls on the manager.
  - The scene objects that feed the triggers are `CollectForTaskSimple`,
    `TaskInteractable`, `SimpleTaskInteractable` and `InteractionListener`, with their
    gating and trigger lookup.
- **Player and panels** (`PlayerControl`, `PanelManagement`).
  - Per-frame target selection keeps every highlighted object matched by exactly one
    pending deselection.
  - The crouch/run/moving flags never have the player crouching and running at once.
  - The pause and settings panels stay consistent, and subscriptions are balanced.
- **Settings and localization** (`SettingsCommon`, `ResolutionSettings`,
  `FrameRateSettings`, `WindowModeSettings`, `CameraShakeSettings`, `VHSRetroSettings`,
  `Localization`).
  - Each dropdown's options, the value it applies, and what it saves to PlayerPrefs.
  - The save-then-load round trips.
  - Extracting the locale code from a locale name.
  - Relabelling that keeps the selected entry.

Some behaviours of the game as written are unexpected but consistent. The model proves
them rather than smoothing them over:

- A collect-item trigger only starts its task on the first item. The second item then
  reports 2 at once (`FirstItemOnlyStarts`, `LaterItemReports`). One item alone never
  completes the trigger.
- An area trigger never completes itself. The manager, though, holds its task at the
  target and completes it (`AreaScenario`).
- An interaction trigger with `triggerOnce` and a target above 1 can never complete
  (`TriggerOnceNeverCompletes`).
- `TaskInteractable.GetTaskId` prefers the custom id, while `TriggerTask` prefers the
  serialized trigger.
- With refresh rates shown, two rates of one size are separate entries. Saving the
  second restores the first, because only width and height are saved
  (`RefreshRateRoundTripMisses`).
- The frame-rate description reads "No limit" exactly for the applied cap -1. Only an
  option of -1 would be labelled differently from its description
  (`DescriptionMirrorsLabel`).
- The window-mode controller applies an index outside its dropdown but does not save it,
  because reading that entry's label throws first.

Unity itself is not modelled.
- PlayerPrefs (integers only) is a class holding a map.
- Screen, QualitySettings, Application, the dropdowns and the player's sight are plain
  fields.
- Ray casts, the head-clearance check and `FindObjectsOfType` results are inputs.
- Calls into Unity components and other scripts go into call logs.

## Model

| member | source | states |
|---|---|---|
| Common.RemoveFirst | Fountain/Assets/Script/GameEvent/GameEventBus.cs:45 | List.Remove leaves a list without the handler unchanged and otherwise shortens it by exactly one |
| Common.RemoveFirstMultiset | Fountain/Assets/Script/GameEvent/GameEventBus.cs:45 | List.Remove takes exactly one copy of the handler out of the list's contents and nothing else |
| Common.RemoveFirstAt | Fountain/Assets/Script/GameEvent/GameEventBus.cs:45 | removing the first occurrence of the element at k closes the gap at k and keeps the order of the rest |
| Common.RemoveFirstNoDup | Fountain/Assets/Script/GameEvent/GameEventBus.cs:45 | removing from a duplicate-free handler list keeps it duplicate-free and the removed handler is gone |
| Common.RemoveFirstKeeps | Fountain/Assets/Script/GameEvent/GameEventBus.cs:45 | List.Remove never introduces an element: whatever remains was in the list |
| Common.IndexOf | Fountain/Assets/Script/Settings/FrameRateManager.cs:209 | List.IndexOf returns -1 exactly when the value is absent, otherwise the index of its first occurrence |
| Common.IndexOfNoDup | Fountain/Assets/Script/Settings/FrameRateManager.cs:209 | in an option list without duplicates, IndexOf of the option at i is i |
| Common.Reverse | Fountain/Assets/Script/GameEvent/GameEventBus.cs:88 | the backward loop visits element k of the reversed list at position length-1-k of the original |
| Text.NatToDecimal | Fountain/Assets/Script/Settings/FrameRateManager.cs:139 | the decimal digits of a natural number are non-empty, all digits, single only below ten and without a leading zero |
| Text.DecimalRoundTrip | Fountain/Assets/Script/Settings/FrameRateManager.cs:139 | reading back the rendered digits gives the number |
| Text.IntRoundTrip | Fountain/Assets/Script/Settings/FrameRateManager.cs:139 | Int32.ToString followed by parsing gives the integer back, negative values included |
| Text.IntToDecimalInjective | Fountain/Assets/Script/Settings/FrameRateManager.cs:139 | two integers render to the same text if and only if they are equal |
| Text.IntToDecimalChars | Fountain/Assets/Script/Settings/ResolutionManager.cs:63-71 | a rendered integer holds only digits and a possible minus sign, so it never contains a key separator |
| Text.SplitAtSeparator | Fountain/Assets/Script/Settings/ResolutionManager.cs:63-71 | a separator absent from both left parts splits two equal joined strings into equal parts |
| Text.JoinedIntsInjective | Fountain/Assets/Script/Settings/ResolutionManager.cs:63-71 | the text "a sep b" of two integers, with a separator that is neither a digit nor a minus, determines both integers |
| Text.ContainsSelf | Fountain/Assets/Script/Task/Trigger/InteractTaskTrigger.cs:110-129 | every name contains itself, so an exact-name match also passes the substring test |
| GameEvents.LocaleIndex | Fountain/Assets/Script/Localization/LocalizationManager.cs:20-24 | the integer value of a LocaleID is 0 or 1 |
| GameEvents.ParseLocale | Fountain/Assets/Script/Localization/LocalizationManager.cs:63 | Enum.Parse succeeds exactly on the names "zh" and "en", and the member it returns carries that name |
| GameEvents.LocaleCodeRoundTrip | Fountain/Assets/Script/Localization/LocalizationManager.cs:20-24 | the name of every LocaleID parses back to that LocaleID |
| GameEvents.NameInjective | Fountain/Assets/Script/GameEvent/GameEventList.cs:19-45 | distinct event classes have distinct type names, so statistics keyed by name lose nothing |
| EventBus.DispatchedSnoc | Fountain/Assets/Script/GameEvent/GameEventBus.cs:88-99 | running one more handler after a run of handlers applies that handler's effect to the result |
| EventBus.SubscribedWellFormed | Fountain/Assets/Script/GameEvent/GameEventBus.cs:22-32 | Subscribe keeps every registered list non-empty and free of duplicate handlers |
| EventBus.UnsubscribedWellFormed | Fountain/Assets/Script/GameEvent/GameEventBus.cs:43-52 | Unsubscribe keeps the registry well formed and the handler is no longer registered for the type |
| EventBus.SubscribeIdempotent | Fountain/Assets/Script/GameEvent/GameEventBus.cs:22-32 | subscribing a registered handler changes nothing, a new one goes to the end of its type's list, and other types are untouched |
| EventBus.UnsubscribeAbsentIsNoop | Fountain/Assets/Script/GameEvent/GameEventBus.cs:43-52 | unsubscribing a handler that is not registered (or from a type without an entry) leaves the registry unchanged |
| EventBus.UnsubscribeUndoesSubscribe | Fountain/Assets/Script/GameEvent/GameEventBus.cs:22-52 | Unsubscribe is the inverse of Subscribe for a handler not yet registered, including dropping a list it created |
| EventBus.UndoOnExistingList | Fountain/Assets/Script/GameEvent/GameEventBus.cs:28-30 | the inverse property when the type already had handlers |
| EventBus.UndoOnNewList | Fountain/Assets/Script/GameEvent/GameEventBus.cs:22-25 | the inverse property when Subscribe created the type's list: Unsubscribe removes the entry again |
| EventBus.RemoveAppended | Fountain/Assets/Script/GameEvent/GameEventBus.cs:30 | List.Remove undoes List.Add of an element the list did not hold |
| EventBus.SubscribeTwiceInvokedOnce | Fountain/Assets/Script/GameEvent/GameEventBus.cs:27-32 | subscribing the same handler twice still invokes it exactly once per Publish |
| EventBus.ReverseMultiset | Fountain/Assets/Script/GameEvent/GameEventBus.cs:88 | the backward loop visits the same handlers as the list holds, each as often |
| EventBus.NoDupCount | Fountain/Assets/Script/GameEvent/GameEventBus.cs:28 | in a duplicate-free handler list every handler occurs exactly once |
| EventBus.LoggedBounded | Fountain/Assets/Script/GameEvent/GameEventBus.cs:65-72 | each Publish adds its type as the newest entry, the history never exceeds MAX_HISTORY (50) and when full the oldest entry is evicted |
| EventBus.PublishUnregisteredIsNoop | Fountain/Assets/Script/GameEvent/GameEventBus.cs:75-79 | publishing a type without subscribers invokes nothing and leaves the registry unchanged |
| EventBus.DispatchWithoutSideEffects | Fountain/Assets/Script/GameEvent/GameEventBus.cs:88-99 | when every handler returns or throws (the exception is caught), dispatch leaves the registry unchanged |
| EventBus.GameEventBus.constructor | Fountain/Assets/Script/GameEvent/GameEventBus.cs:8-12 | the bus starts with no registrations and an empty history |
| EventBus.GameEventBus.Subscribe | Fountain/Assets/Script/GameEvent/GameEventBus.cs:18-33 | the registry becomes Subscribed of the old one, the history is unchanged and the registry stays well formed |
| EventBus.GameEventBus.Unsubscribe | Fountain/Assets/Script/GameEvent/GameEventBus.cs:39-54 | the registry becomes Unsubscribed of the old one, the handler is gone, and the registry stays well formed |
| EventBus.GameEventBus.Publish | Fountain/Assets/Script/GameEvent/GameEventBus.cs:60-100 | the history gains the event's type within the cap, the handlers registered at the start run last-subscribed first, and the registry is the result of their reactions in that order |
| EventBus.GameEventBus.Dispatch | Fountain/Assets/Script/GameEvent/GameEventBus.cs:82-99 | the backward loop over the live list invokes exactly the starting snapshot reversed, even when handlers unsubscribe themselves or subscribe others |
| EventBus.GameEventBus.Invoke | Fountain/Assets/Script/GameEvent/GameEventBus.cs:90-98 | one handler invocation changes the registry only by that handler's own Subscribe or Unsubscribe, and a throw changes nothing |
| EventBus.GameEventBus.GetEventHistory | Fountain/Assets/Script/GameEvent/GameEventBus.cs:106-109 | the copy holds the history, oldest first |
| EventBus.GameEventBus.ClearAllSubscriptions | Fountain/Assets/Script/GameEvent/GameEventBus.cs:114-119 | afterwards nothing is registered and the history is empty |
| EventBus.GameEventBus.GetSubscriptionStats | Fountain/Assets/Script/GameEvent/GameEventBus.cs:124-134 | a type's name is a key exactly when the type is registered, with its positive handler count as the value |
| EventBus.EffectKeepsPrefix | Fountain/Assets/Script/GameEvent/GameEventBus.cs:87-93 | running the handler at index i keeps the registry well formed and leaves the handlers below i in place |
| EventBus.DispatchStep | Fountain/Assets/Script/GameEvent/GameEventBus.cs:88-93 | the handler at index i of the live list is the snapshot's, and after it runs the handlers below i are still the snapshot's |
| EventBus.ReverseStep | Fountain/Assets/Script/GameEvent/GameEventBus.cs:88 | one step of the backward loop appends the element at i to the reversed suffix |
| Localization.Body | Fountain/Assets/Script/Localization/LocalizationManager.cs:61 | the text `$` anchors against is the name itself or the name without one final line feed |
| Localization.LastOpen | Fountain/Assets/Script/Localization/LocalizationManager.cs:61 | the search finds the last "(" at or before k, after position 0, and none lies between it and k |
| Localization.ExtractLocaleCode | Fountain/Assets/Script/Localization/LocalizationManager.cs:61-62 | a code is found exactly when the regex matches, and it is the text inside the last possible "(" before the closing ")" |
| Localization.LocaleOf | Fountain/Assets/Script/Localization/LocalizationManager.cs:61-63 | a locale is recovered exactly when the regex matches and the group is "zh" or "en", and its name is that group |
| Localization.LocaleNameRoundTrip | Fountain/Assets/Script/Localization/LocalizationManager.cs:61-63 | a locale name "<language> (<code>)" yields exactly that code and the LocaleID named by it |
| Localization.NestedParentheses | Fountain/Assets/Script/Localization/LocalizationManager.cs:61-62 | the greedy prefix makes "Chinese (Simplified) (zh)" yield "zh", the last parenthesis |
| Localization.NoParenthesesNoCode | Fountain/Assets/Script/Localization/LocalizationManager.cs:61-63 | a name without a parenthesised suffix yields no code and no locale |
| Localization.LocalizationManager.constructor | Fountain/Assets/Script/Localization/LocalizationManager.cs:26 | currentLocale starts as the enum's default member, zh |
| Localization.LocalizationManager.SetLocale | Fountain/Assets/Script/Localization/LocalizationManager.cs:46-51 | the available locale at the enum's integer value is selected when that index exists; otherwise the indexer throws and nothing changes |
| Localization.LocalizationManager.OnLocaleChanged | Fountain/Assets/Script/Localization/LocalizationManager.cs:57-68 | a parsable locale name sets currentLocale and publishes a LocaleChangeEvent carrying it to the subscribers; an unparsable one changes nothing and publishes nothing |
| Localization.LocalizeDropdown.constructor | Fountain/Assets/Script/Localization/LocalizeDropdown.cs:17-23 | the component holds its configured options and the dropdown's labels and value, and no onValueChanged notification has fired |
| Localization.LocalizeDropdown.Start | Fountain/Assets/Script/Localization/LocalizeDropdown.cs:24-31 | the refresh handler becomes registered for LocaleChangeEvent |
| Localization.LocalizeDropdown.GetLocalizedOptions | Fountain/Assets/Script/Localization/LocalizeDropdown.cs:47-55 | one translated label per configured option, in order |
| Localization.LocalizeDropdown.SetOptionText | Fountain/Assets/Script/Localization/LocalizeDropdown.cs:35-46 | every dropdown label becomes its translation in the current language; ClearOptions puts the selection on 0 without a notification, and restoring a non-zero index on a non-empty list clamps it into range and fires onValueChanged with it once, so an in-range index is kept |
| SettingsCommon.PlayerPrefs.constructor | Fountain/Assets/Script/Settings/FrameRateManager.cs:194-206 | the integer preferences start from the given map |
| SettingsCommon.PlayerPrefs.GetInt | Fountain/Assets/Script/Settings/FrameRateManager.cs:206 | a stored key gives its value and a missing one gives 0 |
| SettingsCommon.PlayerPrefs.SetInt | Fountain/Assets/Script/Settings/FrameRateManager.cs:194 | the key is bound to the value and every other key is kept |
| SettingsCommon.Saved | Fountain/Assets/Script/Settings/FrameRateManager.cs:204-206 | the saved value is used exactly when saving is on and the key was ever set |
| SettingsCommon.Loaded | Fountain/Assets/Script/Settings/FrameRateManager.cs:202-233 | an entry is chosen exactly when the saved value (or, with nothing saved, the default) is among the options; it is the first index holding that value |
| SettingsCommon.ChoiceRoundTrip | Fountain/Assets/Script/Settings/FrameRateManager.cs:154-233 | with saving on and duplicate-free options, storing entry i's value and loading selects entry i again |
| FrameRateSettings.NoLimitLabel | Fountain/Assets/Script/Settings/FrameRateManager.cs:110-143 | only the option 0 is labelled "No limit" |
| FrameRateSettings.LabelBranchesAgree | Fountain/Assets/Script/Settings/FrameRateManager.cs:110-143 | the spelled-out labels for 30, 60, 90, 120 and 144 are exactly what the general `fps + " FPS"` rule gives |
| FrameRateSettings.ShippedDigits | Fountain/Assets/Script/Settings/FrameRateManager.cs:13 | the shipped rates render as "30", "60", "90", "120" and "144" |
| FrameRateSettings.LabelInjective | Fountain/Assets/Script/Settings/FrameRateManager.cs:110-143 | different options get different labels |
| FrameRateSettings.TargetFor | Fountain/Assets/Script/Settings/FrameRateManager.cs:178-188 | the option 0 applies -1 (uncapped) and any other option applies itself |
| FrameRateSettings.Description | Fountain/Assets/Script/Settings/FrameRateManager.cs:238-245 | the description is "No limit" exactly when the target is -1 |
| FrameRateSettings.DescriptionMirrorsLabel | Fountain/Assets/Script/Settings/FrameRateManager.cs:173-245 | the description of the applied cap is the chosen option's label, for every option except -1 |
| FrameRateSettings.FrameRateManager.constructor | Fountain/Assets/Script/Settings/FrameRateManager.cs:8-26 | the manager holds its options and settings, with an empty dropdown |
| FrameRateSettings.FrameRateManager.InitializeDropdown | Fountain/Assets/Script/Settings/FrameRateManager.cs:102-149 | the dropdown holds one label per option, in order, and ClearOptions puts the selection on entry 0; the applied cap is untouched |
| FrameRateSettings.FrameRateManager.BuildLabels | Fountain/Assets/Script/Settings/FrameRateManager.cs:108-143 | the loop produces Label of each option, in order |
| FrameRateSettings.FrameRateManager.OnFrameRateChanged | Fountain/Assets/Script/Settings/FrameRateManager.cs:154-168 | an index outside the options changes nothing; a valid one disables vSync, applies the option's cap and saves it when saving is on |
| FrameRateSettings.FrameRateManager.SetFrameRate | Fountain/Assets/Script/Settings/FrameRateManager.cs:173-197 | vSync is off, the cap is TargetFor of the rate, and the rate itself (0, not -1) is saved when saving is on |
| FrameRateSettings.FrameRateManager.LoadSettings | Fountain/Assets/Script/Settings/FrameRateManager.cs:202-233 | the dropdown selects and applies the entry Loaded chooses; when none is chosen nothing changes |
| FrameRateSettings.FrameRateManager.GetCurrentFrameRateDescription | Fountain/Assets/Script/Settings/FrameRateManager.cs:238-245 | the text is "No limit" exactly when the applied cap is -1 |
| FrameRateSettings.FrameRateRoundTrip | Fountain/Assets/Script/Settings/FrameRateManager.cs:154-233 | choosing entry i and then loading selects entry i again and applies the same cap |
| FrameRateSettings.DefaultSelection | Fountain/Assets/Script/Settings/FrameRateManager.cs:13-226 | with the shipped options and nothing saved, the dropdown starts on entry 1, 60 FPS |
| ResolutionSettings.SizeKey | Fountain/Assets/Script/Settings/ResolutionManager.cs:68-71 | without refresh rates two resolutions share a key if and only if they have the same width and height |
| ResolutionSettings.Keys | Fountain/Assets/Script/Settings/ResolutionManager.cs:63-71 | one key per entry of Screen.resolutions, in order |
| ResolutionSettings.FirstIndices | Fountain/Assets/Script/Settings/ResolutionManager.cs:58-79 | the positions the HashSet lets through are increasing, each holds the first occurrence of its key, and every such position is included |
| ResolutionSettings.Pick | Fountain/Assets/Script/Settings/ResolutionManager.cs:77 | the kept entries are the input entries at the kept positions |
| ResolutionSettings.UniqueKeysDistinct | Fountain/Assets/Script/Settings/ResolutionManager.cs:73-78 | no two entries of uniqueResolutions share a key |
| ResolutionSettings.FirstOccurrence | Fountain/Assets/Script/Settings/ResolutionManager.cs:74 | every key has a first occurrence at or before any of its positions |
| ResolutionSettings.EveryKeyKept | Fountain/Assets/Script/Settings/ResolutionManager.cs:58-79 | every key of Screen.resolutions is represented in uniqueResolutions |
| ResolutionSettings.UniqueIsSubsequence | Fountain/Assets/Script/Settings/ResolutionManager.cs:58-79 | uniqueResolutions keeps the input order: entry k is the input entry at the k-th first-occurrence position |
| ResolutionSettings.OneEntryPerSize | Fountain/Assets/Script/Settings/ResolutionManager.cs:68-78 | without refresh rates, no two entries have the same width and height |
| ResolutionSettings.FirstWithSize | Fountain/Assets/Script/Settings/ResolutionManager.cs:135-146 | the search finds the first entry of the given width and height, or reports that none has it |
| ResolutionSettings.ResolutionRoundTrip | Fountain/Assets/Script/Settings/ResolutionManager.cs:165-241 | without refresh rates, choosing entry i, saving its size and loading selects entry i and applies its size |
| ResolutionSettings.SizeFoundAt | Fountain/Assets/Script/Settings/ResolutionManager.cs:224-238 | in a list with one entry per size, searching for the size of entry i finds i |
| ResolutionSettings.RefreshRateRoundTripMisses | Fountain/Assets/Script/Settings/ResolutionManager.cs:64-67 | with refresh rates shown, two rates of one size are both kept, and the saved width and height lead back to the first of them |
| ResolutionSettings.SeenGrows | Fountain/Assets/Script/Settings/ResolutionManager.cs:76 | after a step the HashSet holds exactly the keys of the entries visited so far |
| ResolutionSettings.DedupKeeps | Fountain/Assets/Script/Settings/ResolutionManager.cs:74-78 | an entry with a new key is appended, as the next first occurrence |
| ResolutionSettings.DedupSkips | Fountain/Assets/Script/Settings/ResolutionManager.cs:74 | an entry whose key was seen adds no position |
| ResolutionSettings.DedupStep | Fountain/Assets/Script/Settings/ResolutionManager.cs:58-79 | one iteration of the de-duplication loop keeps the seen keys and the kept list in step with the first occurrences |
| ResolutionSettings.ResolutionManager.constructor | Fountain/Assets/Script/Settings/ResolutionManager.cs:8-20 | the manager starts with its settings, the screen state and an empty list |
| ResolutionSettings.ResolutionManager.InitializeResolutions | Fountain/Assets/Script/Settings/ResolutionManager.cs:46-85 | uniqueResolutions becomes the first entry of every key in input order and the dropdown gets one label per entry with the selection on entry 0; the screen is untouched |
| ResolutionSettings.ResolutionManager.Deduplicated | Fountain/Assets/Script/Settings/ResolutionManager.cs:52-79 | the loop with its HashSet yields exactly Unique of the input |
| ResolutionSettings.ResolutionManager.PopulateDropdown | Fountain/Assets/Script/Settings/ResolutionManager.cs:90-121 | the labels become one option text per unique resolution, in order, the selection goes back to entry 0 as ClearOptions does, and nothing else changes |
| ResolutionSettings.ResolutionManager.OptionTexts | Fountain/Assets/Script/Settings/ResolutionManager.cs:96-115 | the loop produces the option text of each resolution, in order |
| ResolutionSettings.ResolutionManager.FindSize | Fountain/Assets/Script/Settings/ResolutionManager.cs:132-146 | the loop with its break reports the first entry of the size exactly when one exists |
| ResolutionSettings.ResolutionManager.SetCurrentResolutionInDropdown | Fountain/Assets/Script/Settings/ResolutionManager.cs:126-160 | the dropdown shows the first entry of the current size, and stays as it was when there is none |
| ResolutionSettings.ResolutionManager.OnResolutionChanged | Fountain/Assets/Script/Settings/ResolutionManager.cs:165-179 | an index outside the list changes nothing; a valid one applies that entry's size and saves it when saving is on |
| ResolutionSettings.ResolutionManager.ApplyResolution | Fountain/Assets/Script/Settings/ResolutionManager.cs:184-211 | the screen takes the width and height, keeps its full-screen flag, and both are saved when saving is on |
| ResolutionSettings.ResolutionManager.LoadSavedResolution | Fountain/Assets/Script/Settings/ResolutionManager.cs:216-241 | with a saved width, the first entry of the saved size is shown and applied; otherwise nothing changes, and nothing is saved |
| WindowModeSettings.ModeFor | Fountain/Assets/Script/Settings/WindowModeController.cs:45-56 | entries 0, 1 and 2 select exclusive full screen, windowed and borderless full screen; any other index keeps the current mode |
| WindowModeSettings.EntryForScreen | Fountain/Assets/Script/Settings/WindowModeController.cs:78-88 | the entry shown for the current screen is 1 exactly when windowed and 0 exactly for exclusive full screen, otherwise 2 |
| WindowModeSettings.EntryRoundTrip | Fountain/Assets/Script/Settings/WindowModeController.cs:43-88 | applying entry 0, 1 or 2 and reading the screen back gives the same entry |
| WindowModeSettings.WindowModeController.constructor | Fountain/Assets/Script/Settings/WindowModeController.cs:8-12 | the controller holds its settings and the current screen mode |
| WindowModeSettings.WindowModeController.OnWindowModeChanged | Fountain/Assets/Script/Settings/WindowModeController.cs:43-67 | the mode follows ModeFor, full screen is set for every index but 1, and the index is saved only when it names a dropdown entry (the label lookup throws otherwise) and saving is on |
| WindowModeSettings.WindowModeController.LoadWindowMode | Fountain/Assets/Script/Settings/WindowModeController.cs:69-89 | a saved index is shown and applied as stored, without a range check; without one the dropdown shows the current screen's entry and nothing changes |
| CameraShakeSettings.CameraShakeManager.constructor | Fountain/Assets/Script/Settings/CameraShakeManager.cs:17-24 | the manager holds its options, settings and the sight's shake flag |
| CameraShakeSettings.CameraShakeManager.OnCameraShakeChanged | Fountain/Assets/Script/Settings/CameraShakeManager.cs:83-97 | an index outside the options changes nothing; a valid one turns shake on exactly for the option 1 and saves the option when saving is on |
| CameraShakeSettings.CameraShakeManager.SetFrameRate | Fountain/Assets/Script/Settings/CameraShakeManager.cs:99-116 | shake is on exactly for the value 1, and the value is saved when saving is on |
| CameraShakeSettings.CameraShakeManager.LoadSettings | Fountain/Assets/Script/Settings/CameraShakeManager.cs:121-152 | the dropdown selects and applies the entry Loaded chooses with default 1; when none is chosen nothing changes |
| CameraShakeSettings.ShippedOptions | Fountain/Assets/Script/Settings/CameraShakeManager.cs:19-152 | with the options {0, 1}, a fresh install starts at entry 1 with shake on, and a saved 0 is restored as entry 0 |
| VHSRetroSettings.LabelsAgree | Fountain/Assets/Script/Settings/VHSRetroFeatureManager.cs:54-62 | two options get the same label exactly when both switch the feature on or both switch it off, so "On" and "Off" are the only distinctions the dropdown shows |
| VHSRetroSettings.VHSRetroFeatureManager.constructor | Fountain/Assets/Script/Settings/VHSRetroFeatureManager.cs:14-21 | the manager holds its options, settings and the feature's enabled flag, with an empty dropdown |
| VHSRetroSettings.VHSRetroFeatureManager.InitializeDropdown | Fountain/Assets/Script/Settings/VHSRetroFeatureManager.cs:44-71 | the old labels are replaced by one label per option, in order, which establishes that the dropdown shows each option's label; the selection goes back to entry 0 as ClearOptions does, and the feature is untouched |
| VHSRetroSettings.VHSRetroFeatureManager.BuildLabels | Fountain/Assets/Script/Settings/VHSRetroFeatureManager.cs:50-65 | the loop produces the label of each option, in order |
| VHSRetroSettings.VHSRetroFeatureManager.OnVHSRetroFeatureChanged | Fountain/Assets/Script/Settings/VHSRetroFeatureManager.cs:76-90 | an index outside the options changes nothing; a valid one enables the feature exactly for the option 1 and saves the option when saving is on; once the dropdown shows the option labels, the chosen entry reads "On" exactly when the feature ends up enabled |
| VHSRetroSettings.VHSRetroFeatureManager.SetVHSRetroFeature | Fountain/Assets/Script/Settings/VHSRetroFeatureManager.cs:92-109 | the feature is enabled exactly for the value 1, and the value is saved when saving is on |
| VHSRetroSettings.VHSRetroFeatureManager.LoadSettings | Fountain/Assets/Script/Settings/VHSRetroFeatureManager.cs:114-145 | the dropdown selects and applies the entry Loaded chooses with default 1; when none is chosen nothing changes; once the dropdown shows the option labels, the restored entry reads "On" exactly when the feature ends up enabled |
| VHSRetroSettings.RestoredLabelMatchesFeature | Fountain/Assets/Script/Settings/VHSRetroFeatureManager.cs:114-145 | the entry LoadSettings selects lies within the options and is labelled "On" exactly when its value switches the feature on, "Off" exactly when it switches it off |
| PanelManagement.Enabled | Fountain/Assets/Script/Manager/PanelManager.cs:21-26 | a game that is not paused is made to run (time scale 1) with the pause panel hidden; a paused one is left exactly as it was |
| PanelManagement.Resumed | Fountain/Assets/Script/Manager/PanelManager.cs:109-120 | the game is no longer paused, runs at time scale 1 with the pause panel hidden, and move input, sight input and the hidden cursor are restored in that order |
| PanelManagement.Toggled | Fountain/Assets/Script/Manager/PanelManager.cs:47-68 | the pause flag flips; entering the pause freezes time, shows the panel and disables move and sight input and shows the cursor; leaving it is ResumeGame |
| PanelManagement.SettingShown | Fountain/Assets/Script/Manager/PanelManager.cs:82-90 | the pause panel is hidden and the pause-panel input disabled; the settings panel is open afterwards exactly when it was or the manager's SettingEvent handler ran |
| PanelManagement.BackFromSettings | Fountain/Assets/Script/Manager/PanelManager.cs:127-137 | the settings panel closes, the pause-panel input is re-enabled, and the pause panel is shown when the game is paused |
| PanelManagement.TransitionsKeepConsistent | Fountain/Assets/Script/Manager/PanelManager.cs:12-137 | every transition keeps the invariant that time runs exactly when not paused and the pause panel only shows while paused |
| PanelManagement.PauseTwiceResumes | Fountain/Assets/Script/Manager/PanelManager.cs:39-68 | pausing twice returns to a running game with the pause panel hidden, the input taken away and then given back |
| PanelManagement.SettingsRoundTrip | Fountain/Assets/Script/Manager/PanelManager.cs:82-137 | opening the settings and going back shows the pause panel exactly when the game is paused, leaves time alone and disables then re-enables the pause-panel input |
| PanelManagement.SubscribedAll | Fountain/Assets/Script/Manager/PanelManager.cs:15-19 | after OnEnable's subscriptions each handler is registered for its event type |
| PanelManagement.UnsubscribeCommutes | Fountain/Assets/Script/Manager/PanelManager.cs:15-36 | Subscribe and Unsubscribe on different event types commute |
| PanelManagement.CommutesWhenPresent | Fountain/Assets/Script/Manager/PanelManager.cs:15-36 | the commutation when the subscribed handler was already registered |
| PanelManagement.CommutesWhenAdded | Fountain/Assets/Script/Manager/PanelManager.cs:15-36 | the commutation when the subscribed handler is new to its type |
| PanelManagement.AddedThenEmptied | Fountain/Assets/Script/Manager/PanelManager.cs:15-36 | the commutation when the unsubscription empties the other type's list |
| PanelManagement.AddedThenShortened | Fountain/Assets/Script/Manager/PanelManager.cs:15-36 | the commutation when the unsubscription leaves the other type's list non-empty |
| PanelManagement.UpdatesCommute | Fountain/Assets/Script/Manager/PanelManager.cs:15-36 | updates of two different event types in the registry commute, and so do an update and a removal |
| PanelManagement.UnsubscribeElsewhere | Fountain/Assets/Script/Manager/PanelManager.cs:32-36 | unsubscribing from one event type leaves every other type's entry and list alone |
| PanelManagement.DisableRemovesHandlers | Fountain/Assets/Script/Manager/PanelManager.cs:29-37 | after OnDisable none of the three handlers is registered for its event type |
| PanelManagement.DisableUndoesEnable | Fountain/Assets/Script/Manager/PanelManager.cs:12-37 | when none of the three handlers was registered, OnEnable followed by OnDisable leaves the bus's registry exactly as it was |
| PanelManagement.PanelManager.constructor | Fountain/Assets/Script/Manager/PanelManager.cs:7-10 | a fresh component is not paused, runs at time scale 1 and has made no input calls |
| PanelManagement.PanelManager.OnEnable | Fountain/Assets/Script/Manager/PanelManager.cs:12-27 | the three handlers are subscribed, the history is untouched, and the panels follow Enabled |
| PanelManagement.PanelManager.OnDisable | Fountain/Assets/Script/Manager/PanelManager.cs:29-37 | the three handlers are unsubscribed and the history is untouched |
| PanelManagement.PanelManager.OnPauseClicked | Fountain/Assets/Script/Manager/PanelManager.cs:39-68 | the panels follow Toggled |
| PanelManagement.PanelManager.GameContinue | Fountain/Assets/Script/Manager/PanelManager.cs:101-104 | the panels follow Resumed |
| PanelManagement.PanelManager.ResumeGame | Fountain/Assets/Script/Manager/PanelManager.cs:109-120 | the panels follow Resumed |
| PanelManagement.PanelManager.OpenSettingPanel | Fountain/Assets/Script/Manager/PanelManager.cs:122-125 | the settings panel is shown and nothing else changes |
| PanelManagement.PanelManager.OnMenuClicked | Fountain/Assets/Script/Manager/PanelManager.cs:73-77 | one MenuEvent is logged and its subscribers are invoked, last subscribed first |
| PanelManagement.PanelManager.OnSettingClicked | Fountain/Assets/Script/Manager/PanelManager.cs:82-90 | one SettingEvent is published to its subscribers, then the panels follow SettingShown, opening the settings exactly when this manager's handler was among those invoked |
| PanelManagement.PanelManager.OnContinueClicked | Fountain/Assets/Script/Manager/PanelManager.cs:95-99 | one ContinueEvent is published; the game resumes exactly when this manager's GameContinue was among the handlers invoked |
| PanelManagement.PanelManager.OnBackClicked | Fountain/Assets/Script/Manager/PanelManager.cs:127-137 | the panels follow BackFromSettings |
| TaskRecords.NewTask | Fountain/Assets/Script/Task/TaskData.cs:13-20 | a new task holds its name, target and description, has counted nothing and is not completed |
| TaskRecords.CompletedIsFinal | Fountain/Assets/Script/Task/TaskData.cs:24 | a completed task ignores every further update |
| TaskRecords.ProgressClamps | Fountain/Assets/Script/Task/TaskData.cs:26 | on an open task the new count is the sum, clamped at the target |
| TaskRecords.CompletionMeaning | Fountain/Assets/Script/Task/TaskData.cs:22-32 | after an update the task is completed exactly when it already was or the count reached the target |
| TaskRecords.CountStaysBounded | Fountain/Assets/Script/Task/TaskData.cs:22-32 | a count within the target stays within it, and non-negative amounts never lower it |
| TaskRecords.ProgressText | Fountain/Assets/Script/Task/TaskData.cs:40-43 | the text holds a '/', and parsing the parts before and after the first one gives back the count and the target |
| TaskRecords.ProgressTextInjective | Fountain/Assets/Script/Task/TaskData.cs:40-43 | two (count, target) pairs show the same text if and only if they are equal |
| TaskRecords.ProgressFraction | Fountain/Assets/Script/Task/TaskData.cs:34-38 | the percentage is 0 for a non-positive target, otherwise the share of the target reached, and lies in [0, 1] while the count is within the target |
| TaskRecords.FiveUpdatesComplete | Fountain/Assets/Script/Task/SimpleTaskTest.cs:72-90 | a task with target 5 stays open after four +1 updates and completes on the fifth, showing "5/5" |
| TaskRecords.TaskData.constructor | Fountain/Assets/Script/Task/TaskData.cs:13-20 | the fields are those of NewTask |
| TaskRecords.TaskData.UpdateProgress | Fountain/Assets/Script/Task/TaskData.cs:22-32 | the fields become Progressed of the old ones |
| TaskManagement.AddNeverDuplicatesUi | Fountain/Assets/Script/Task/TaskManager.cs:37-44 | a new task id never has a UI entry yet, so the dictionary Add in CreateTaskUI cannot throw |
| TaskManagement.AddedKeepsInv | Fountain/Assets/Script/Task/TaskManager.cs:33-50 | AddTask keeps the manager's invariant |
| TaskManagement.AddedEffect | Fountain/Assets/Script/Task/TaskManager.cs:33-50 | a known id changes nothing; a new id inserts the constructed task, gets a UI entry exactly when the prefab, container and component are there, and leaves the other entries alone |
| TaskManagement.FirstTaskNumberedOne | Fountain/Assets/Script/Task/TaskManager.cs:122-128 | without a number, the first task added to an empty manager is shown as number "1", the task count after insertion |
| TaskManagement.ProgressKeepsInv | Fountain/Assets/Script/Task/TaskManager.cs:52-86 | UpdateTaskProgress keeps the manager's invariant |
| TaskManagement.ProgressUnknownIsNoop | Fountain/Assets/Script/Task/TaskManager.cs:56-85 | an unknown id changes nothing |
| TaskManagement.CompletionSignalledOnce | Fountain/Assets/Script/Task/TaskManager.cs:65-78 | the completion plays and the removal starts exactly when an update takes an open task that has a UI entry to completed; otherwise no completion is logged and nothing is scheduled |
| TaskManagement.RetiredKeepsInv | Fountain/Assets/Script/Task/TaskManager.cs:137-166 | the removal keeps the manager's invariant |
| TaskManagement.RetiredEffect | Fountain/Assets/Script/Task/TaskManager.cs:146-163 | removal drops the id from both dictionaries, tolerates entries already gone, touches no other task, and hides and destroys the UI only when there is one |
| TaskManagement.RetiredNotPending | Fountain/Assets/Script/Task/TaskManager.cs:137-166 | after its removal has run, the id is no longer pending |
| TaskManagement.CollectGemsScenario | Fountain/Assets/Script/Task/SimpleTaskTest.cs:72-90 | adding "test_task_1" with target 5 and reporting +1 five times shows each count in turn, completes the task with one completion call after the fifth update, and leaves its removal pending |
| TaskManagement.TaskManager.constructor | Fountain/Assets/Script/Task/TaskManager.cs:17-18 | a fresh manager has no tasks, no UI entries, no calls and no pending removals |
| TaskManagement.TaskManager.AddTask | Fountain/Assets/Script/Task/TaskManager.cs:33-50 | the state becomes Added of the old one and the invariant is kept |
| TaskManagement.TaskManager.CreateTaskUI | Fountain/Assets/Script/Task/TaskManager.cs:88-135 | the state becomes CreatedUi of the old one: a numbered, initialized UI entry exactly when the prefab, container and component are there |
| TaskManagement.TaskManager.UpdateTaskProgress | Fountain/Assets/Script/Task/TaskManager.cs:52-86 | the state becomes ProgressReported of the old one and the invariant is kept |
| TaskManagement.TaskManager.DelayedRemove | Fountain/Assets/Script/Task/TaskManager.cs:144-165 | the state becomes Retired of the old one and the invariant is kept |
| TaskManagement.TaskManager.RemoveTaskUI | Fountain/Assets/Script/Task/TaskManager.cs:146-158 | the UI entry is hidden, destroyed and dropped when present; the tasks are untouched |
| TaskTriggers.IdOf | Fountain/Assets/Script/Task/Trigger/BaseTaskTrigger.cs:16-24 | the getter returns a serialized id unchanged and never returns an empty id when the generator yields a non-empty GUID |
| TaskTriggers.WithId | Fountain/Assets/Script/Task/Trigger/BaseTaskTrigger.cs:16-24 | storing the generated id never changes what a later read of TaskId reports |
| TaskTriggers.IsTarget | Fountain/Assets/Script/Task/Trigger/InteractTaskTrigger.cs:110-129 | an object is a target exactly when it is present and its name contains the wanted name (when one is set) or it carries the wanted tag (when one is set) |
| TaskTriggers.ReportedSnoc | Fountain/Assets/Script/Task/TaskManager.cs:52 | the total reported grows by the amount of each UpdateTaskProgress call and by nothing for AddTask |
| TaskTriggers.InitialInv | Fountain/Assets/Script/Task/Trigger/BaseTaskTrigger.cs:32-33 | a trigger as the scene loads it satisfies the trigger invariant |
| TaskTriggers.IdIsStable | Fountain/Assets/Script/Task/Trigger/BaseTaskTrigger.cs:16-43 | a non-empty id never changes, an empty one becomes the generated id or stays empty, and Start stores the id the getter reports |
| TaskTriggers.EnteredKeepsId | Fountain/Assets/Script/Task/Trigger/BaseTaskTrigger.cs:16-24 | OnTriggerEnter keeps the id stable |
| TaskTriggers.InteractedKeepsId | Fountain/Assets/Script/Task/Trigger/InteractTaskTrigger.cs:67-108 | OnObjectInteracted keeps the id stable |
| TaskTriggers.ReportingKeepsId | Fountain/Assets/Script/Task/Trigger/BaseTaskTrigger.cs:64-97 | StartTask and UpdateTaskProgress keep the id stable |
| TaskTriggers.TickGating | Fountain/Assets/Script/Task/Trigger/BaseTaskTrigger.cs:49-62 | Update does nothing on a completed trigger or while the condition is false, starts the task on the first qualifying frame and reports progress afterwards |
| TaskTriggers.StartTaskEffect | Fountain/Assets/Script/Task/Trigger/BaseTaskTrigger.cs:64-76 | StartTask marks the task started and calls AddTask with the trigger's id and settings exactly when a manager exists |
| TaskTriggers.BaseProgressEffect | Fountain/Assets/Script/Task/Trigger/BaseTaskTrigger.cs:78-97 | the base progress update is inert unless started and open; a positive amount n runs the hook n times and reports n once |
| TaskTriggers.FlagsLatch | Fountain/Assets/Script/Task/Trigger/BaseTaskTrigger.cs:32-33 | no stimulus resets taskStarted or taskCompleted, and the manager calls and destroyed objects only grow |
| TaskTriggers.EnteredLatches | Fountain/Assets/Script/Task/Trigger/CollectItemTrigger.cs:26-51 | OnTriggerEnter keeps both flags latched and only appends calls and destroyed objects |
| TaskTriggers.CountedLatches | Fountain/Assets/Script/Task/Trigger/CollectItemTrigger.cs:30-44 | counting an item keeps both flags latched, only appends calls and destroys nothing by itself |
| TaskTriggers.InteractedLatches | Fountain/Assets/Script/Task/Trigger/InteractTaskTrigger.cs:67-108 | an interaction keeps both flags latched and only appends calls |
| TaskTriggers.StartLatches | Fountain/Assets/Script/Task/Trigger/BaseTaskTrigger.cs:64-76 | StartTask sets taskStarted, keeps taskCompleted and only appends calls |
| TaskTriggers.ProgressLatches | Fountain/Assets/Script/Task/Trigger/AreaEnterTrigger.cs:22-29 | the dispatched UpdateTaskProgress keeps both flags and only appends calls |
| TaskTriggers.BaseLatches | Fountain/Assets/Script/Task/Trigger/BaseTaskTrigger.cs:78-97 | the base UpdateTaskProgress keeps both flags and only appends calls |
| TaskTriggers.StepKeepsInv | Fountain/Assets/Script/Task/Trigger/BaseTaskTrigger.cs:35-103 | every stimulus keeps the trigger invariant: completed implies started, calls only after starting, and per variant the counters stay consistent with what was reported |
| TaskTriggers.TickedKeepsInv | Fountain/Assets/Script/Task/Trigger/BaseTaskTrigger.cs:49-62 | Update keeps the trigger invariant |
| TaskTriggers.InteractedKeepsInv | Fountain/Assets/Script/Task/Trigger/InteractTaskTrigger.cs:67-108 | OnObjectInteracted keeps the trigger invariant |
| TaskTriggers.EnteredKeepsInv | Fountain/Assets/Script/Task/Trigger/CollectItemTrigger.cs:26-51 | OnTriggerEnter keeps the trigger invariant |
| TaskTriggers.CountedKeepsInv | Fountain/Assets/Script/Task/Trigger/CollectItemTrigger.cs:30-44 | counting an item keeps the trigger invariant |
| TaskTriggers.FirstCountKeepsInv | Fountain/Assets/Script/Task/Trigger/CollectItemTrigger.cs:32-35 | starting the task on the first item keeps the trigger invariant |
| TaskTriggers.LaterCountKeepsInv | Fountain/Assets/Script/Task/Trigger/CollectItemTrigger.cs:36-44 | reporting a later item, and completing after it, keep the trigger invariant |
| TaskTriggers.RunKeepsInv | Fountain/Assets/Script/Task/Trigger/BaseTaskTrigger.cs:35-103 | every sequence of stimuli from a state satisfying the invariant keeps it |
| TaskTriggers.AreaCondition | Fountain/Assets/Script/Task/Trigger/AreaEnterTrigger.cs:11-20 | the area condition is exactly "player inside and area not yet entered", and the amount is always 1 |
| TaskTriggers.AreaPresence | Fountain/Assets/Script/Task/Trigger/AreaEnterTrigger.cs:31-45 | only a "Player" collider moves playerInArea: entering sets it and leaving clears it |
| TaskTriggers.AreaEnteredIsFinal | Fountain/Assets/Script/Task/Trigger/AreaEnterTrigger.cs:22-29 | once the area is entered it stays entered and no further call reaches the manager |
| TaskTriggers.AreaNeverCompletes | Fountain/Assets/Script/Task/Trigger/AreaEnterTrigger.cs:1-46 | the area trigger never sets its own taskCompleted |
| TaskTriggers.AreaScenario | Fountain/Assets/Script/Task/Trigger/AreaEnterTrigger.cs:11-45 | a player walking in makes the first frame start the task and the next report +1 and close the area; the manager then holds the task completed at 1/1 with its removal pending, while the trigger itself never completes |
| TaskTriggers.AppliedKeepsInv | Fountain/Assets/Script/Task/TaskManager.cs:33-86 | the manager's invariant holds after any log of trigger calls |
| TaskTriggers.CollectIgnoresTicks | Fountain/Assets/Script/Task/Trigger/CollectItemTrigger.cs:11-14 | the base Update never advances a collect trigger |
| TaskTriggers.CollectAmountCatchesUp | Fountain/Assets/Script/Task/Trigger/CollectItemTrigger.cs:16-24 | the amount is the uncounted items, taking it catches the count up, and an immediate second call yields 0 |
| TaskTriggers.CollectTagGate | Fountain/Assets/Script/Task/Trigger/CollectItemTrigger.cs:26-51 | only colliders with the item tag count, and each of them is destroyed |
| TaskTriggers.FirstItemOnlyStarts | Fountain/Assets/Script/Task/Trigger/CollectItemTrigger.cs:32-35 | the first item only starts the task: nothing is reported and the task does not complete |
| TaskTriggers.LaterItemReports | Fountain/Assets/Script/Task/Trigger/CollectItemTrigger.cs:36-44 | a later item reports every uncounted item (2 right after the first) and completes the trigger exactly when the count reaches the target |
| TaskTriggers.CollectAfterCompletion | Fountain/Assets/Script/Task/Trigger/CollectItemTrigger.cs:26-51 | after completion items are still counted and destroyed, but nothing is reported |
| TaskTriggers.CollectReportsEveryItemOnce | Fountain/Assets/Script/Task/Trigger/CollectItemTrigger.cs:16-51 | with a manager, the total reported always equals the items the trigger has taken as progress |
| TaskTriggers.InteractSettings | Fountain/Assets/Script/Task/Trigger/InteractTaskTrigger.cs:53-62 | the interact trigger never advances on Update, and its amount is progressPerInteraction |
| TaskTriggers.InteractIgnored | Fountain/Assets/Script/Task/Trigger/InteractTaskTrigger.cs:67-108 | interactions are ignored once completed, after the single counted one when triggerOnce is set, and for objects that do not match |
| TaskTriggers.InteractCounted | Fountain/Assets/Script/Task/Trigger/InteractTaskTrigger.cs:82-103 | a counted interaction bumps the count, marks the trigger, starts the task the first time and reports afterwards, and completes exactly when the count reaches the target |
| TaskTriggers.TriggerOnceNeverCompletes | Fountain/Assets/Script/Task/Trigger/InteractTaskTrigger.cs:75-102 | with triggerOnce set, a target above 1 is never reached |
| TaskTriggers.TaskTrigger.constructor | Fountain/Assets/Script/Task/Trigger/BaseTaskTrigger.cs:5-33 | a fresh trigger holds its configuration and the initial state with its serialized id |
| TaskTriggers.TaskTrigger.Start | Fountain/Assets/Script/Task/Trigger/BaseTaskTrigger.cs:35-43 | the state follows Step for BeginPlay: an empty id is replaced by the generated one |
| TaskTriggers.TaskTrigger.TaskId | Fountain/Assets/Script/Task/Trigger/BaseTaskTrigger.cs:16-24 | returns IdOf the old state and stores the id |
| TaskTriggers.TaskTrigger.GetProgressAmount | Fountain/Assets/Script/Task/Trigger/CollectItemTrigger.cs:16-24 | the amount and new state are those of AmountTaken for the trigger's variant |
| TaskTriggers.TaskTrigger.IncrementProgress | Fountain/Assets/Script/Task/Trigger/BaseTaskTrigger.cs:47 | the hook is counted once and nothing else changes |
| TaskTriggers.TaskTrigger.IncrementTimes | Fountain/Assets/Script/Task/Trigger/BaseTaskTrigger.cs:85-88 | the loop runs the hook exactly n times and changes nothing else |
| TaskTriggers.TaskTrigger.StartTask | Fountain/Assets/Script/Task/Trigger/BaseTaskTrigger.cs:64-76 | the state follows TaskStarted |
| TaskTriggers.TaskTrigger.BaseUpdateTaskProgress | Fountain/Assets/Script/Task/Trigger/BaseTaskTrigger.cs:78-97 | the state follows BaseProgressed |
| TaskTriggers.TaskTrigger.Advance | Fountain/Assets/Script/Task/Trigger/BaseTaskTrigger.cs:83-95 | for a positive amount the hook runs that many times and, with a manager, one UpdateTaskProgress call reports the amount |
| TaskTriggers.TaskTrigger.UpdateTaskProgress | Fountain/Assets/Script/Task/Trigger/AreaEnterTrigger.cs:22-29 | the state follows ProgressUpdated, with the area trigger's override |
| TaskTriggers.TaskTrigger.Update | Fountain/Assets/Script/Task/Trigger/BaseTaskTrigger.cs:49-62 | the state follows Step for one frame |
| TaskTriggers.TaskTrigger.OnTaskCompleted | Fountain/Assets/Script/Task/Trigger/BaseTaskTrigger.cs:99-103 | the trigger is marked completed and nothing else changes |
| TaskTriggers.TaskTrigger.OnTriggerEnter | Fountain/Assets/Script/Task/Trigger/CollectItemTrigger.cs:26-51 | the state follows Step for the collider entering |
| TaskTriggers.TaskTrigger.CollectOne | Fountain/Assets/Script/Task/Trigger/CollectItemTrigger.cs:30-44 | the state follows Counted |
| TaskTriggers.TaskTrigger.OnTriggerExit | Fountain/Assets/Script/Task/Trigger/AreaEnterTrigger.cs:39-45 | the state follows Step for the collider leaving |
| TaskTriggers.TaskTrigger.OnObjectInteracted | Fountain/Assets/Script/Task/Trigger/InteractTaskTrigger.cs:67-108 | the state follows Step for the interaction |
| TaskInteraction.DefaultConfigReportsOnce | Fountain/Assets/Script/Task/Interface/ITaskInteractable.cs:9-16 | an interactable left at the InteractConfig defaults and linked to a trigger notifies it of its first interaction only, carrying the default config, and is never destroyed |
| TaskInteraction.Lookup | Fountain/Assets/Script/Task/CollectForTaskSimple.cs:64-104 | the shared trigger lookup: the serialized trigger if and only if one is set; otherwise the first scene trigger whose id matches (and none before it does); otherwise, only when auto-find is on and the scene is non-empty, the first trigger; no target exactly when all three fail |
| TaskInteraction.FindById | Fountain/Assets/Script/InteractableObjects/InteractionListener.cs:39-49 | the scene search loop stops at the first trigger whose TaskId equals the id, and returns -1 when none does |
| TaskInteraction.CollectedAgain | Fountain/Assets/Script/Task/CollectForTaskSimple.cs:109-244 | an object already collected gets past InteractWith and adds progress again only when repeat collection is on and progress is not first-time only |
| TaskInteraction.CollectTargetTakesOnce | Fountain/Assets/Script/Task/CollectForTaskSimple.cs:233-241 | against a collect-item trigger, any number (one or more) of progress invocations ends in the state of a single one, since the first counts every uncounted item |
| TaskInteraction.InteractTargetReportsEach | Fountain/Assets/Script/Task/CollectForTaskSimple.cs:233-241 | against a running interaction trigger, n invocations report n progress calls of progressPerInteraction each under the same id, and the trigger stays started and not completed |
| TaskInteraction.CollectForTaskSimple.constructor | Fountain/Assets/Script/Task/CollectForTaskSimple.cs:8-47 | a collectible starts with no target, not collected, not destroyed and not highlighted |
| TaskInteraction.CollectForTaskSimple.FindTargetTask | Fountain/Assets/Script/Task/CollectForTaskSimple.cs:64-104 | Start links the target that Lookup selects, with the id search always on and auto-find as configured, and changes nothing else |
| TaskInteraction.CollectForTaskSimple.InteractWith | Fountain/Assets/Script/Task/CollectForTaskSimple.cs:109-140 | a collected non-repeatable object or a wrong tag changes nothing; otherwise the target is updated as UpdateTaskProgress specifies, and only when progress was applied is the object marked collected and destroyed if destroyOnCollect |
| TaskInteraction.CollectForTaskSimple.UpdateTaskProgress | Fountain/Assets/Script/Task/CollectForTaskSimple.cs:184-244 | progress is applied exactly when a target exists, has started, is not complete and the first-time-only rule does not block it; then the target takes progressPerCollect steps of its own update (none when that is zero or negative), otherwise it is unchanged |
| TaskInteraction.CollectForTaskSimple.Select | Fountain/Assets/Script/Task/CollectForTaskSimple.cs:145-162 | the object is highlighted when an outline or renderer is present, unless it is collected and cannot be collected again |
| TaskInteraction.CollectForTaskSimple.Deselect | Fountain/Assets/Script/Task/CollectForTaskSimple.cs:167-179 | the highlight is removed whenever an outline or renderer is present |
| TaskInteraction.CollectForTaskSimple.GetTaskId | Fountain/Assets/Script/Task/CollectForTaskSimple.cs:249-254 | the id of the linked target, or customTaskId when there is none |
| TaskInteraction.TriggerNotifications | Fountain/Assets/Script/Task/TaskInteractable.cs:76-96 | at most one trigger is told: the serialized one if set; otherwise, when customTaskId is non-empty and some scene trigger has it, a scene trigger with that id |
| TaskInteraction.TaskInteractable.constructor | Fountain/Assets/Script/Task/TaskInteractable.cs:7-26 | an interactable starts without a config, not interacted, not destroyed and with no notifications sent |
| TaskInteraction.TaskInteractable.Awake | Fountain/Assets/Script/Task/TaskInteractable.cs:28-131 | Awake sets the config to the four serialized settings, GetInteractConfig then returns exactly those settings, and nothing else changes |
| TaskInteraction.TaskInteractable.InteractWith | Fountain/Assets/Script/Task/TaskInteractable.cs:56-74 | a second interaction of a single-use object changes nothing; otherwise the TriggerTask notifications are sent, the object is marked interacted and destroyed if destroyOnInteract |
| TaskInteraction.TaskInteractable.TriggerTask | Fountain/Assets/Script/Task/TaskInteractable.cs:76-96 | sends exactly the notifications TriggerNotifications describes and changes no flag |
| TaskInteraction.TaskInteractable.GetTaskId | Fountain/Assets/Script/Task/TaskInteractable.cs:122-126 | customTaskId when set, else the serialized trigger's id, and null exactly when neither is set |
| TaskInteraction.SimpleTaskInteractable.constructor | Fountain/Assets/Script/Task/SimpleTaskInteractable.cs:5-19 | a simple interactable starts without a config, not interacted, not destroyed and with no notifications sent |
| TaskInteraction.SimpleTaskInteractable.Awake | Fountain/Assets/Script/Task/SimpleTaskInteractable.cs:21-30 | Awake sets the config to the four serialized settings and changes nothing else |
| TaskInteraction.SimpleTaskInteractable.OnPlayerInteract | Fountain/Assets/Script/Task/SimpleTaskInteractable.cs:32-50 | a second interaction of a single-use object changes nothing; otherwise the notifications are sent, the object is marked interacted and destroyed if destroyOnInteract |
| TaskInteraction.SimpleTaskInteractable.TriggerTask | Fountain/Assets/Script/Task/SimpleTaskInteractable.cs:52-72 | sends exactly the notifications TriggerNotifications describes and changes no flag |
| TaskInteraction.Broadcast | Fountain/Assets/Script/InteractableObjects/InteractionListener.cs:73-79 | every trigger in the scene receives the object exactly once, each ending in the state its own OnObjectInteracted gives |
| TaskInteraction.InteractionListener.constructor | Fountain/Assets/Script/InteractableObjects/InteractionListener.cs:6-20 | a listener starts with no linked trigger |
| TaskInteraction.InteractionListener.FindTaskTrigger | Fountain/Assets/Script/InteractableObjects/InteractionListener.cs:27-56 | links the serialized trigger if set, else (with auto-find on and a non-empty id) the first scene trigger with that id, else none; it never falls back to the first trigger |
| TaskInteraction.InteractionListener.OnInteracted | Fountain/Assets/Script/InteractableObjects/InteractionListener.cs:61-81 | with a linked trigger only that trigger hears of the object and every other scene trigger is unchanged; without one every scene trigger hears of it |
| PlayerControl.BalanceAppend | Fountain/Assets/Script/Player/PlayerInteractor.cs:50-85 | the count of outstanding selections in a call log adds up over concatenation |
| PlayerControl.DetectKeepsBalance | Fountain/Assets/Script/Player/PlayerInteractor.cs:50-85 | after every frame the interactables hold exactly one outstanding Select when a target is held and none otherwise, so no object is left highlighted after losing focus |
| PlayerControl.DetectCallOrder | Fountain/Assets/Script/Player/PlayerInteractor.cs:50-85 | a miss or a hit without an interactable deselects the old target and raises the deselect event; a new interactable is deselect-old, raise, select-new, raise, in that order; the same interactable again makes no call |
| PlayerControl.PlayerInteractor.constructor | Fountain/Assets/Script/Player/PlayerInteractor.cs:31-34 | the interactor starts with no target and no calls made |
| PlayerControl.PlayerInteractor.DetectInteractable | Fountain/Assets/Script/Player/PlayerInteractor.cs:50-85 | the held target becomes the interactable the ray found (none on a miss), the calls made are those DetectCalls lists, and the selection balance is kept |
| PlayerControl.PlayerInteractor.Interact | Fountain/Assets/Script/Player/PlayerInteractor.cs:90-94 | the held target, and only it, receives InteractWith; without a target nothing happens and the target never changes |
| PlayerControl.Moved | Fountain/Assets/Script/Player/PlayerMove.cs:73-94 | zero input stops the player and cancels the shake; other input moves it with the run shake only when running and not crouching; no other flag changes and the no-crouch-run rule is kept |
| PlayerControl.RunSwitched | Fountain/Assets/Script/Player/PlayerMove.cs:109-117 | the player runs afterwards if and only if it ran before or it is moving and not crouching; nothing else changes |
| PlayerControl.WalkSwitched | Fountain/Assets/Script/Player/PlayerMove.cs:121-124 | the player is not running afterwards and nothing else changes |
| PlayerControl.CrouchSwitchEffect | Fountain/Assets/Script/Player/PlayerMove.cs:128-147 | crouching down always succeeds, stops running and starts the transition to the crouched height; standing up happens only with a clear head and otherwise changes nothing |
| PlayerControl.PostureAlwaysHolds | Fountain/Assets/Script/Player/PlayerMove.cs:73-147 | no sequence of Move, SwitchToRun, SwitchToWalk and SwitchCrouch calls leaves the player crouching and running at once |
| PlayerControl.SpeedOrder | Fountain/Assets/Script/Player/PlayerMove.cs:169-184 | with a crouch multiplier in [0, 1] and a run multiplier of at least 1, a crouching player (running or not) is never faster than walking, and a running one never slower |
| PlayerControl.CrouchDownNeverFaster | Fountain/Assets/Script/Player/PlayerMove.cs:128-184 | crouching down clears running and never raises the speed CalculateSpeed picks, whether the player was walking or running |
| PlayerControl.PlayerMove.constructor | Fountain/Assets/Script/Player/PlayerMove.cs:55-60 | the player starts standing, still and walking, heading for the standing height |
| PlayerControl.PlayerMove.Move | Fountain/Assets/Script/Player/PlayerMove.cs:73-105 | the new state is Moved of the old one and the no-crouch-run rule is kept |
| PlayerControl.PlayerMove.SwitchToRun | Fountain/Assets/Script/Player/PlayerMove.cs:109-117 | the new state is RunSwitched of the old one and the no-crouch-run rule is kept |
| PlayerControl.PlayerMove.SwitchToWalk | Fountain/Assets/Script/Player/PlayerMove.cs:121-124 | the new state is WalkSwitched of the old one and the no-crouch-run rule is kept |
| PlayerControl.PlayerMove.SwitchCrouch | Fountain/Assets/Script/Player/PlayerMove.cs:128-147 | the new state is CrouchSwitched of the old one for the head check's answer, and the no-crouch-run rule is kept |

## Left out

- Debug logging, the text and timestamps of history entries, and all rendering are not modelled. A history entry records the event type only.
- Exceptions are not modelled as control flow. A faulting bus handler is a `Throws` reaction that dispatch skips past. Raising a C# event with no subscribers (a null delegate) is treated as a recorded raise, not a crash.
- A handler that unsubscribes a handler other than itself during Publish is not modelled. The reactions cover returning, throwing, unsubscribing itself and subscribing one other handler.
- `BaseTaskTrigger.IncrementProgress` is abstract and no shown variant implements it. Its calls are counted (`increments`), not executed.
- The two-argument `OnObjectInteracted(gameObject, config)` that `TaskInteractable` and `SimpleTaskInteractable` call does not exist on the shown trigger. Those calls are recorded as `Notification` values, not executed.
- The fresh GUID of an empty trigger id comes from an oracle (`freshId` of the trigger's configuration).
- Reading `TaskId` during a scene search stores a generated id on an id-less trigger. `FindById` and `GetTaskId` read the id without storing it. A trigger's id never changes once read, so later reads agree.
- `FindObjectsOfType` is the `scene` sequence given to each operation. Its order is the engine's and is not modelled.
- Destroy sets a `destroyed` flag (or appends to a destroyed list) and the object stays addressable.
- The reflection in `CollectForTaskSimple.UpdateTaskProgress` is replaced by direct reads of the trigger's started and completed flags and direct calls of its progress step. The case of the reflected member being missing (returning false) is not modelled.
- `CollectForTaskSimple.IsCollected` is a plain read of `isCollected`, which the model exposes as a field.
- `CollectForTaskSimple.Awake` (caching the renderer and its original colour) is not modelled. The highlight is a boolean, and the colour values are left out.
- `InteractTaskTrigger`'s `FindTargetObjects` fills a cache that no shown code reads, so it is not modelled.
- `TaskManager`'s `GetActiveTasks` and `GetActiveTaskUIs` return the dictionaries themselves and are not modelled. The model's `tasks` and `uis` maps are readable directly.
- The manager keeps task records as values, so the aliasing between a `TaskData` object, its manager entry and its `TaskUI` is not modelled. The `TaskUI` calls (Initialize, UpdateDisplay, Complete, Hide) are a call log.
- `DelayedRemove`'s 2 s and 0.5 s waits are dropped. Retirement is an explicit later step for a pending id.
- The `Instance` singletons are plain references, and `TaskManager.Instance` being null is a `managerPresent` flag.
- The wiring of Unity Localization's `SelectedLocaleChanged` event is not modelled. `OnLocaleChanged` is called directly with the locale name.
- `Enum.Parse` accepting numeric strings, comma lists and surrounding whitespace is not modelled. Only the names `zh` and `en` parse, and anything else is the error case.
- TMP_Dropdown clamping an assigned value into its option range is modelled only in `LocalizeDropdown.SetOptionText`. Elsewhere the model's value is the integer assigned. The placeholder case, where -1 is also allowed, is not modelled.
- LocalizeDropdown.SetOptionText: the onValueChanged notifications it fires are logged in `valueChanges` but are not delivered to listeners. On a language switch the window-mode and camera-shake controllers' listeners re-apply and re-save their setting; the model does not wire that chain.
- `PlayerPrefs.Save` and non-integer preferences are not modelled.
- The engine's coupling between `Screen.fullScreen` and `Screen.fullScreenMode` is not modelled. The two are independent fields.
- `Screen.currentResolution` and `Screen.resolutions` are inputs. `refreshRateRatio` is an opaque string.
- `ResolutionManager.GetCurrentResolutionInfo` only formats the current screen for display and is not modelled.
- The window-mode and camera-shake labels come from `LocalizeDropdown`. Their controllers only know the number of entries.
- The FPS display of `FrameRateManager.Update` and `UpdateDisplay` (smoothing and colours) is floating point and is not modelled.
- `PlayerMove`'s vector movement, `Rotate`, the `Lerp` of `CrouchTransition` and the physics `HeadDetect` are not modelled. The head check's answer is an input, and the transition is a flag and a target height.
- `PlayerInteractor` identifies interactables by number. The calls it makes on them (Select, Deselect, InteractWith) are logged rather than dispatched to the four interactable classes.
- MouseSensitivityManager, VHSGammaSlider, GammaController, AudioMixerController, PlayerSight, GameInputManager, InteractPrompt, OutlineVisual and PlayerInstance are engine plumbing or floating point and are not part of this model. The `GameInputManager` methods that `PanelManager` calls are recorded in its call log.
- UI text, fonts and the TaskUI fade and flash animations are not modelled.
- UpdateProgress: `currentCount + amount` is an Int32 sum that wraps on overflow (for example count 10 plus `int.MaxValue`); the model (`TaskData.UpdateProgress` and its function `Progressed`) adds unbounded integers, so `CountStaysBounded` and `CompletionMeaning` hold for sums within the Int32 range only.
- TaskTriggers.TaskTrigger.CollectOne: the `itemsCollected++` counter is an unbounded integer; its Int32 wrap after 2^31 - 1 items is not modelled.
- TaskTriggers.TaskTrigger.OnObjectInteracted: the `interactionCount++` counter is an unbounded integer; its Int32 wrap is not modelled.
- ProgressFraction: GetProgressPercentage divides as 32-bit floats; the model returns the exact real quotient, so float rounding (1/3, for instance) is not modelled.
- Speed: CalculateSpeed multiplies 32-bit floats; the model uses exact reals, so float rounding is not modelled.
