/** VHSRetroFeatureManager.cs: the dropdown that switches the VHS post-processing
    feature on and off, saved under "VHSRetroFeature". */
module VHSRetroSettings {
  import opened Common
  import opened SettingsCommon

  const VHSRetroFeatureKey: string := "VHSRetroFeature"
  /** The value selected when nothing was saved: the feature on. */
  const DefaultVHSRetroFeature: int := 1

  /** The label of an option: "On" for 1 and "Off" for anything else. */
  function Label(value: int): (s: string)
    ensures s == "On" <==> value == 1
    ensures s == "Off" <==> value != 1
  {
    if value == 1 then "On" else "Off"
  }

  /** Two options share a label exactly when they put the feature in the same state,
      so the dropdown tells the user nothing beyond on or off. */
  lemma LabelsAgree(a: int, b: int)
    ensures Label(a) == Label(b) <==> (a == 1) == (b == 1)
  {
    assert "On" != "Off" by {
      assert "On"[1] != "Off"[1];
    }
  }

  class VHSRetroFeatureManager {
    const options: seq<int>
    const saveSettings: bool
    const prefs: PlayerPrefs
    /** VHSRetroFeature.enabled of the renderer feature the manager is wired to. */
    var featureEnabled: bool
    var labels: seq<string>
    var dropdownValue: int

    /** The dropdown shows one label per option, in order. */
    predicate LabelsShown()
      reads this
    {
      |labels| == |options| && forall i :: 0 <= i < |options| ==> labels[i] == Label(options[i])
    }

    constructor (options: seq<int>, saveSettings: bool, prefs: PlayerPrefs, featureEnabled: bool)
      ensures this.options == options && this.saveSettings == saveSettings && this.prefs == prefs
      ensures this.featureEnabled == featureEnabled && labels == [] && dropdownValue == 0
    {
      this.options := options;
      this.saveSettings := saveSettings;
      this.prefs := prefs;
      this.featureEnabled := featureEnabled;
      labels := [];
      dropdownValue := 0;
    }

    /** InitializeDropdown: the old labels are replaced by one label per option;
        ClearOptions puts the selection back on entry 0. */
    method InitializeDropdown()
      modifies this
      ensures |labels| == |options|
      ensures forall i :: 0 <= i < |options| ==> labels[i] == Label(options[i])
      ensures LabelsShown()
      ensures featureEnabled == old(featureEnabled) && dropdownValue == 0
    {
      labels := [];
      dropdownValue := 0;
      var built := BuildLabels();
      labels := labels + built;
    }

    /** The loop of InitializeDropdown that builds the label list. */
    method BuildLabels() returns (built: seq<string>)
      ensures |built| == |options|
      ensures forall i :: 0 <= i < |options| ==> built[i] == Label(options[i])
    {
      built := [];
      for i := 0 to |options|
        invariant |built| == i
        invariant forall j :: 0 <= j < i ==> built[j] == Label(options[j])
      {
        var text := if options[i] == 1 then "On" else "Off";
        built := built + [text];
      }
    }

    /** OnVHSRetroFeatureChanged: an index outside the options is rejected; otherwise
        the option's value is applied. */
    method OnVHSRetroFeatureChanged(index: int)
      modifies this, prefs
      ensures !(0 <= index < |options|) ==> featureEnabled == old(featureEnabled) && prefs.ints == old(prefs.ints)
      ensures 0 <= index < |options| ==> (featureEnabled == (options[index] == 1)
        && prefs.ints == if saveSettings then old(prefs.ints)[VHSRetroFeatureKey := options[index]] else old(prefs.ints))
      ensures labels == old(labels) && dropdownValue == old(dropdownValue)
      ensures LabelsShown() && 0 <= index < |options| ==> (labels[index] == "On" <==> featureEnabled)
    {
      if index < 0 || index >= |options| {
        return;
      }
      SetVHSRetroFeature(options[index]);
    }

    /** SetVHSRetroFeature: 1 enables the feature, any other value disables it; when
        saving, the value is stored. */
    method SetVHSRetroFeature(value: int)
      modifies this, prefs
      ensures featureEnabled == (value == 1)
      ensures prefs.ints == if saveSettings then old(prefs.ints)[VHSRetroFeatureKey := value] else old(prefs.ints)
      ensures labels == old(labels) && dropdownValue == old(dropdownValue)
    {
      if value == 1 {
        featureEnabled := true;
      } else {
        featureEnabled := false;
      }
      if saveSettings {
        prefs.SetInt(VHSRetroFeatureKey, value);
      }
    }

    /** LoadSettings: restore a saved value that is among the options, or select value 1
        when nothing was saved (or saving is off) and 1 is an option. */
    method LoadSettings()
      modifies this, prefs
      ensures var c := Loaded(options, Saved(old(prefs.ints), VHSRetroFeatureKey, saveSettings), DefaultVHSRetroFeature);
        if c.Some? then
          dropdownValue == c.value.index && featureEnabled == (c.value.value == 1)
          && prefs.ints == (if saveSettings then old(prefs.ints)[VHSRetroFeatureKey := c.value.value] else old(prefs.ints))
        else
          dropdownValue == old(dropdownValue) && featureEnabled == old(featureEnabled) && prefs.ints == old(prefs.ints)
      ensures labels == old(labels)
      ensures LabelsShown() && Loaded(options, Saved(old(prefs.ints), VHSRetroFeatureKey, saveSettings), DefaultVHSRetroFeature).Some? ==>
        0 <= dropdownValue < |labels| && (labels[dropdownValue] == "On" <==> featureEnabled)
    {
      if saveSettings && prefs.HasKey(VHSRetroFeatureKey) {
        var saved := prefs.GetInt(VHSRetroFeatureKey);
        var savedIndex := IndexOf(options, saved);
        if savedIndex >= 0 {
          dropdownValue := savedIndex;
          SetVHSRetroFeature(saved);
        }
      } else {
        var defaultIndex := IndexOf(options, DefaultVHSRetroFeature);
        if defaultIndex >= 0 {
          dropdownValue := defaultIndex;
          SetVHSRetroFeature(DefaultVHSRetroFeature);
        }
      }
    }
  }

  /** The entry LoadSettings selects is labelled "On" exactly when the value it
      applies switches the feature on, and "Off" exactly when it switches it off. */
  lemma RestoredLabelMatchesFeature(options: seq<int>, saved: Option<int>)
    requires Loaded(options, saved, DefaultVHSRetroFeature).Some?
    ensures var c := Loaded(options, saved, DefaultVHSRetroFeature).value;
      c.index < |options| && (Label(options[c.index]) == "On" <==> c.value == 1)
      && (Label(options[c.index]) == "Off" <==> c.value != 1)
  {
  }
}
