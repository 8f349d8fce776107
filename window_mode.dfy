/** WindowModeController.cs: the window-mode dropdown (exclusive full screen,
    windowed, borderless full screen), applied to Screen.fullScreenMode and
    Screen.fullScreen and saved under "WindowMode". */
module WindowModeSettings {
  import opened Common
  import opened SettingsCommon

  const WindowModeKey: string := "WindowMode"

  /** UnityEngine.FullScreenMode */
  datatype FullScreenMode = ExclusiveFullScreen | FullScreenWindow | MaximizedWindow | Windowed

  /** The switch of OnWindowModeChanged: entries 0, 1 and 2 pick a mode, any other
      index keeps the current one. */
  function ModeFor(index: int, current: FullScreenMode): (m: FullScreenMode)
    ensures index == 0 ==> m == ExclusiveFullScreen
    ensures index == 1 ==> m == Windowed
    ensures index == 2 ==> m == FullScreenWindow
    ensures !(0 <= index <= 2) ==> m == current
  {
    match index
    case 0 => ExclusiveFullScreen
    case 1 => Windowed
    case 2 => FullScreenWindow
    case _ => current
  }

  /** The entry LoadWindowMode shows when nothing was saved: 1 for a windowed screen,
      0 for exclusive full screen and 2 for any other full-screen mode. */
  function EntryForScreen(fullScreen: bool, mode: FullScreenMode): (k: nat)
    ensures k <= 2
    ensures k == 1 <==> !fullScreen
    ensures k == 0 <==> fullScreen && mode == ExclusiveFullScreen
  {
    if fullScreen then (if mode == ExclusiveFullScreen then 0 else 2) else 1
  }

  /** Applying entry 0, 1 or 2 and reading the screen back gives the same entry. */
  lemma EntryRoundTrip(index: int, current: FullScreenMode)
    requires 0 <= index <= 2
    ensures EntryForScreen(index != 1, ModeFor(index, current)) == index
  {
    if index == 0 {
      assert ModeFor(0, current) == ExclusiveFullScreen;
    } else if index == 2 {
      assert ModeFor(2, current) == FullScreenWindow;
    }
  }

  class WindowModeController {
    const saveSettings: bool
    const prefs: PlayerPrefs
    /** The number of labels in the dropdown, which LocalizeDropdown fills. */
    const optionCount: nat
    /** Screen.fullScreenMode and Screen.fullScreen. */
    var fullScreenMode: FullScreenMode
    var fullScreen: bool
    var dropdownValue: int

    constructor (saveSettings: bool, prefs: PlayerPrefs, optionCount: nat, fullScreenMode: FullScreenMode, fullScreen: bool)
      ensures this.saveSettings == saveSettings && this.prefs == prefs && this.optionCount == optionCount
      ensures this.fullScreenMode == fullScreenMode && this.fullScreen == fullScreen && dropdownValue == 0
    {
      this.saveSettings := saveSettings;
      this.prefs := prefs;
      this.optionCount := optionCount;
      this.fullScreenMode := fullScreenMode;
      this.fullScreen := fullScreen;
      dropdownValue := 0;
    }

    /** OnWindowModeChanged: set the mode and the full-screen flag, then log the entry's
        label and, when saving, store the index. Reading the label of an index outside
        the dropdown throws, so such an index is applied but not stored; `logged` is
        false then. */
    method OnWindowModeChanged(index: int) returns (logged: bool)
      modifies this, prefs
      ensures fullScreenMode == ModeFor(index, old(fullScreenMode))
      ensures fullScreen == (index != 1)
      ensures logged <==> 0 <= index < optionCount
      ensures prefs.ints == if logged && saveSettings then old(prefs.ints)[WindowModeKey := index] else old(prefs.ints)
      ensures dropdownValue == old(dropdownValue)
    {
      if index == 0 {
        fullScreenMode := ExclusiveFullScreen;
      } else if index == 1 {
        fullScreenMode := Windowed;
      } else if index == 2 {
        fullScreenMode := FullScreenWindow;
      }
      fullScreen := index != 1;
      if !(0 <= index < optionCount) {
        return false;
      }
      logged := true;
      if saveSettings {
        prefs.SetInt(WindowModeKey, index);
      }
    }

    /** LoadWindowMode: a saved index is shown and applied as stored, with no range
        check; without one the dropdown shows the entry of the current screen. */
    method LoadWindowMode()
      modifies this, prefs
      ensures var saved := Saved(old(prefs.ints), WindowModeKey, saveSettings);
        if saved.Some? then
          dropdownValue == saved.value && fullScreenMode == ModeFor(saved.value, old(fullScreenMode))
          && fullScreen == (saved.value != 1) && prefs.ints == old(prefs.ints)
        else
          dropdownValue == EntryForScreen(old(fullScreen), old(fullScreenMode))
          && fullScreenMode == old(fullScreenMode) && fullScreen == old(fullScreen) && prefs.ints == old(prefs.ints)
    {
      if saveSettings && prefs.HasKey(WindowModeKey) {
        var savedMode := prefs.GetInt(WindowModeKey);
        dropdownValue := savedMode;
        var _ := OnWindowModeChanged(savedMode);
      } else {
        if fullScreen {
          dropdownValue := if fullScreenMode == ExclusiveFullScreen then 0 else 2;
        } else {
          dropdownValue := 1;
        }
      }
    }
  }
}
