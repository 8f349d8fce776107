/** CameraShakeManager.cs: the camera-shake dropdown, applied to the player's sight
    and saved under "CameraShake". The dropdown's labels come from LocalizeDropdown. */
module CameraShakeSettings {
  import opened Common
  import opened SettingsCommon

  const CameraShakeKey: string := "CameraShake"
  /** The value selected when nothing was saved: shake on. */
  const DefaultCameraShake: int := 1
  /** The cameraShakeOptions the component is created with: 0 off, 1 on. */
  const DefaultOptions: seq<int> := [0, 1]

  class CameraShakeManager {
    const options: seq<int>
    const saveSettings: bool
    const prefs: PlayerPrefs
    /** PlayerSight.enableShake of the sight the manager is wired to. */
    var enableShake: bool
    var dropdownValue: int

    constructor (options: seq<int>, saveSettings: bool, prefs: PlayerPrefs, enableShake: bool)
      ensures this.options == options && this.saveSettings == saveSettings && this.prefs == prefs
      ensures this.enableShake == enableShake && dropdownValue == 0
    {
      this.options := options;
      this.saveSettings := saveSettings;
      this.prefs := prefs;
      this.enableShake := enableShake;
      dropdownValue := 0;
    }

    /** OnCameraShakeChanged: an index outside the options is rejected; otherwise the
        option's value is applied. */
    method OnCameraShakeChanged(index: int)
      modifies this, prefs
      ensures !(0 <= index < |options|) ==> enableShake == old(enableShake) && prefs.ints == old(prefs.ints)
      ensures 0 <= index < |options| ==> (enableShake == (options[index] == 1)
        && prefs.ints == if saveSettings then old(prefs.ints)[CameraShakeKey := options[index]] else old(prefs.ints))
      ensures dropdownValue == old(dropdownValue)
    {
      if index < 0 || index >= |options| {
        return;
      }
      SetFrameRate(options[index]);
    }

    /** The shake toggle (named SetFrameRate in the source): 1 turns shake on, any other
        value off; when saving, the value is stored. */
    method SetFrameRate(value: int)
      modifies this, prefs
      ensures enableShake == (value == 1)
      ensures prefs.ints == if saveSettings then old(prefs.ints)[CameraShakeKey := value] else old(prefs.ints)
      ensures dropdownValue == old(dropdownValue)
    {
      if value == 1 {
        enableShake := true;
      } else {
        enableShake := false;
      }
      if saveSettings {
        prefs.SetInt(CameraShakeKey, value);
      }
    }

    /** LoadSettings: restore a saved value that is among the options, or select value 1
        when nothing was saved (or saving is off) and 1 is an option. */
    method LoadSettings()
      modifies this, prefs
      ensures var c := Loaded(options, Saved(old(prefs.ints), CameraShakeKey, saveSettings), DefaultCameraShake);
        if c.Some? then
          dropdownValue == c.value.index && enableShake == (c.value.value == 1)
          && prefs.ints == (if saveSettings then old(prefs.ints)[CameraShakeKey := c.value.value] else old(prefs.ints))
        else
          dropdownValue == old(dropdownValue) && enableShake == old(enableShake) && prefs.ints == old(prefs.ints)
    {
      if saveSettings && prefs.HasKey(CameraShakeKey) {
        var saved := prefs.GetInt(CameraShakeKey);
        var savedIndex := IndexOf(options, saved);
        if savedIndex >= 0 {
          dropdownValue := savedIndex;
          SetFrameRate(saved);
        }
      } else {
        var defaultIndex := IndexOf(options, DefaultCameraShake);
        if defaultIndex >= 0 {
          dropdownValue := defaultIndex;
          SetFrameRate(DefaultCameraShake);
        }
      }
    }
  }

  /** With the shipped options, a fresh install starts with shake on, at entry 1, and a
      saved "off" is restored as entry 0. */
  lemma ShippedOptions(ints: map<string, int>)
    ensures Loaded(DefaultOptions, None, DefaultCameraShake) == Some(Choice(1, 1))
    ensures Loaded(DefaultOptions, Saved(ints[CameraShakeKey := 0], CameraShakeKey, true), DefaultCameraShake)
      == Some(Choice(0, 0))
  {
    assert DefaultOptions[0] == 0 && DefaultOptions[1] == 1;
    assert Saved(ints[CameraShakeKey := 0], CameraShakeKey, true) == Some(0);
  }
}
