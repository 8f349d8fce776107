/** FrameRateManager.cs: the frame-rate dropdown, the cap it applies to the engine
    and the choice it saves and restores. Application.targetFrameRate and
    QualitySettings.vSyncCount are fields of the manager. */
module FrameRateSettings {
  import opened Common
  import opened Text
  import opened SettingsCommon

  /** FRAME_RATE_KEY */
  const FrameRateKey: string := "TargetFrameRate"
  /** The rate selected when nothing was saved. */
  const DefaultFrameRate: int := 60
  /** The frameRateOptions the component is created with; 0 stands for no limit. */
  const DefaultOptions: seq<int> := [30, 60, 90, 120, 144, 0]

  /** The label of an option: "No limit" for 0, otherwise the number and " FPS". */
  function Label(fps: int): string {
    if fps == 0 then "No limit" else IntToDecimal(fps) + " FPS"
  }

  /** Only the option 0 is labelled "No limit"; every other label ends in " FPS". */
  lemma NoLimitLabel(fps: int)
    ensures Label(fps) == "No limit" <==> fps == 0
  {
    if fps != 0 {
      var s := Label(fps);
      assert s[|s| - 1] == 'S';
    }
  }

  /** The labelling of InitializeDropdown as written, with a spelled-out label for each
      of the shipped rates ahead of the general rule. */
  function LabelAsWritten(fps: int): string {
    if fps == 0 then "No limit"
    else if fps == 30 then "30 FPS"
    else if fps == 60 then "60 FPS"
    else if fps == 90 then "90 FPS"
    else if fps == 120 then "120 FPS"
    else if fps == 144 then "144 FPS"
    else IntToDecimal(fps) + " FPS"
  }

  /** The spelled-out labels are exactly what the general rule gives. */
  lemma LabelBranchesAgree(fps: int)
    ensures LabelAsWritten(fps) == Label(fps)
  {
    ShippedDigits();
  }

  /** The decimal digits of the shipped rates. */
  lemma ShippedDigits()
    ensures IntToDecimal(30) == "30" && IntToDecimal(60) == "60" && IntToDecimal(90) == "90"
    ensures IntToDecimal(120) == "120" && IntToDecimal(144) == "144"
  {
    assert NatToDecimal(30) == NatToDecimal(3) + [Digit(0)];
    assert NatToDecimal(60) == NatToDecimal(6) + [Digit(0)];
    assert NatToDecimal(90) == NatToDecimal(9) + [Digit(0)];
    assert NatToDecimal(12) == NatToDecimal(1) + [Digit(2)];
    assert NatToDecimal(120) == NatToDecimal(12) + [Digit(0)];
    assert NatToDecimal(14) == NatToDecimal(1) + [Digit(4)];
    assert NatToDecimal(144) == NatToDecimal(14) + [Digit(4)];
  }

  /** Different rates get different labels. */
  lemma LabelInjective(a: int, b: int)
    requires Label(a) == Label(b)
    ensures a == b
  {
    NoLimitLabel(a);
    NoLimitLabel(b);
    if a != 0 && b != 0 {
      var sa, sb := IntToDecimal(a), IntToDecimal(b);
      assert sa == Label(a)[..|Label(a)| - 4];
      assert sb == Label(b)[..|Label(b)| - 4];
      IntToDecimalInjective(a, b);
    }
  }

  /** The Application.targetFrameRate SetFrameRate applies: -1 (uncapped) for 0. */
  function TargetFor(fps: int): (t: int)
    ensures fps == 0 ==> t == -1
    ensures fps != 0 ==> t == fps
  {
    if fps == 0 then -1 else fps
  }

  /** GetCurrentFrameRateDescription for a target frame rate. */
  function Description(target: int): (s: string)
    ensures target == -1 <==> s == "No limit"
  {
    if target == -1 then "No limit"
    else
      var s := IntToDecimal(target) + " FPS";
      assert s[|s| - 1] == 'S';
      s
  }

  /** The description of the applied cap is the label of the chosen option; only an
      option of -1, labelled "-1 FPS", would be described as "No limit". */
  lemma DescriptionMirrorsLabel(fps: int)
    requires fps != -1
    ensures Description(TargetFor(fps)) == Label(fps)
  {
  }

  class FrameRateManager {
    const options: seq<int>
    const saveSettings: bool
    const prefs: PlayerPrefs
    /** The dropdown's labels and selected index. */
    var labels: seq<string>
    var dropdownValue: int
    /** QualitySettings.vSyncCount and Application.targetFrameRate. */
    var vSyncCount: int
    var targetFrameRate: int

    constructor (options: seq<int>, saveSettings: bool, prefs: PlayerPrefs, vSyncCount: int, targetFrameRate: int)
      ensures this.options == options && this.saveSettings == saveSettings && this.prefs == prefs
      ensures labels == [] && dropdownValue == 0
      ensures this.vSyncCount == vSyncCount && this.targetFrameRate == targetFrameRate
    {
      this.options := options;
      this.saveSettings := saveSettings;
      this.prefs := prefs;
      labels := [];
      dropdownValue := 0;
      this.vSyncCount := vSyncCount;
      this.targetFrameRate := targetFrameRate;
    }

    /** InitializeDropdown: replace the labels by one label per option, in order;
        ClearOptions puts the selection back on entry 0. */
    method InitializeDropdown()
      modifies this
      ensures |labels| == |options|
      ensures forall i :: 0 <= i < |options| ==> labels[i] == Label(options[i])
      ensures dropdownValue == 0
      ensures vSyncCount == old(vSyncCount) && targetFrameRate == old(targetFrameRate)
    {
      labels := BuildLabels();
      dropdownValue := 0;
    }

    /** The loop of InitializeDropdown that builds the label list. */
    method BuildLabels() returns (built: seq<string>)
      ensures |built| == |options|
      ensures forall i :: 0 <= i < |options| ==> built[i] == Label(options[i])
    {
      built := [];
      for i := 0 to |options|
        invariant |built| == i
        invariant forall j :: 0 <= j < i ==> built[j] == Label(options[j])
      {
        LabelBranchesAgree(options[i]);
        built := built + [LabelAsWritten(options[i])];
      }
    }

    /** OnFrameRateChanged: an index outside the options is rejected; otherwise the
        option's rate is applied. */
    method OnFrameRateChanged(index: int)
      modifies this, prefs
      ensures !(0 <= index < |options|) ==> (vSyncCount == old(vSyncCount)
        && targetFrameRate == old(targetFrameRate) && prefs.ints == old(prefs.ints))
      ensures 0 <= index < |options| ==> (vSyncCount == 0 && targetFrameRate == TargetFor(options[index])
        && prefs.ints == if saveSettings then old(prefs.ints)[FrameRateKey := options[index]] else old(prefs.ints))
      ensures labels == old(labels) && dropdownValue == old(dropdownValue)
    {
      if index < 0 || index >= |options| {
        return;
      }
      SetFrameRate(options[index]);
    }

    /** SetFrameRate: switch vSync off, apply the cap and, when saving, store the
        option's own value (0 for no limit, not -1). */
    method SetFrameRate(fps: int)
      modifies this, prefs
      ensures vSyncCount == 0 && targetFrameRate == TargetFor(fps)
      ensures prefs.ints == if saveSettings then old(prefs.ints)[FrameRateKey := fps] else old(prefs.ints)
      ensures labels == old(labels) && dropdownValue == old(dropdownValue)
    {
      vSyncCount := 0;
      if fps == 0 {
        targetFrameRate := -1;
      } else {
        targetFrameRate := fps;
      }
      if saveSettings {
        prefs.SetInt(FrameRateKey, fps);
      }
    }

    /** LoadSettings: restore the saved rate if it is among the options, or select
        60 when nothing was saved (or saving is off) and 60 is an option. */
    method LoadSettings()
      modifies this, prefs
      ensures var c := Loaded(options, Saved(old(prefs.ints), FrameRateKey, saveSettings), DefaultFrameRate);
        if c.Some? then
          dropdownValue == c.value.index && vSyncCount == 0 && targetFrameRate == TargetFor(c.value.value)
          && prefs.ints == (if saveSettings then old(prefs.ints)[FrameRateKey := c.value.value] else old(prefs.ints))
        else
          dropdownValue == old(dropdownValue) && vSyncCount == old(vSyncCount)
          && targetFrameRate == old(targetFrameRate) && prefs.ints == old(prefs.ints)
      ensures labels == old(labels)
    {
      if saveSettings && prefs.HasKey(FrameRateKey) {
        var savedFps := prefs.GetInt(FrameRateKey);
        var savedIndex := IndexOf(options, savedFps);
        if savedIndex >= 0 {
          dropdownValue := savedIndex;
          SetFrameRate(savedFps);
        }
      } else {
        var defaultIndex := IndexOf(options, DefaultFrameRate);
        if defaultIndex >= 0 {
          dropdownValue := defaultIndex;
          SetFrameRate(DefaultFrameRate);
        }
      }
    }

    /** GetCurrentFrameRateDescription */
    function GetCurrentFrameRateDescription(): (s: string)
      reads this
      ensures targetFrameRate == -1 <==> s == "No limit"
    {
      Description(targetFrameRate)
    }
  }

  /** Choosing entry i with saving on and then loading selects entry i again and
      applies the same cap, for options without duplicates. */
  lemma FrameRateRoundTrip(options: seq<int>, i: nat, ints: map<string, int>)
    requires NoDup(options) && i < |options|
    ensures Loaded(options, Saved(ints[FrameRateKey := options[i]], FrameRateKey, true), DefaultFrameRate)
      == Some(Choice(i, options[i]))
  {
    ChoiceRoundTrip(options, i, ints, FrameRateKey, DefaultFrameRate);
  }

  /** With the shipped options and nothing saved, the dropdown starts on 60 FPS, entry 1. */
  lemma DefaultSelection()
    ensures Loaded(DefaultOptions, None, DefaultFrameRate) == Some(Choice(1, 60))
  {
    assert DefaultOptions[0] == 30 && DefaultOptions[1] == 60;
  }
}
