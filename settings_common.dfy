/** What the settings managers share: the integer part of PlayerPrefs and the rule
    by which FrameRateManager, CameraShakeManager and VHSRetroFeatureManager pick
    the dropdown entry to restore at start-up. */
module SettingsCommon {
  import opened Common

  /** PlayerPrefs' integer entries, as an in-memory map. */
  class PlayerPrefs {
    var ints: map<string, int>

    constructor (ints: map<string, int>)
      ensures this.ints == ints
    {
      this.ints := ints;
    }

    function HasKey(key: string): bool
      reads this
    {
      key in ints
    }

    /** GetInt(key): the stored value, 0 for a key never set. */
    function GetInt(key: string): (v: int)
      reads this
      ensures key in ints ==> v == ints[key]
      ensures key !in ints ==> v == 0
    {
      if key in ints then ints[key] else 0
    }

    method SetInt(key: string, value: int)
      modifies this
      ensures ints == old(ints)[key := value]
    {
      ints := ints[key := value];
    }
  }

  /** The value LoadSettings goes by: the saved one when saving is on and the key was
      ever set, None otherwise (the branch that falls back to the default). */
  function Saved(ints: map<string, int>, key: string, saveSettings: bool): (r: Option<int>)
    ensures r.Some? <==> saveSettings && key in ints
    ensures r.Some? ==> r.value == ints[key]
  {
    if saveSettings && key in ints then Some(ints[key]) else None
  }

  /** The dropdown index LoadSettings selects and the option value it applies. */
  datatype Choice = Choice(index: nat, value: int)

  /** LoadSettings: a saved value is looked up with List.IndexOf and applied only when
      it is among the options; without one the default is looked up the same way. */
  function Loaded(options: seq<int>, saved: Option<int>, default: int): (r: Option<Choice>)
    ensures r.Some? <==> (if saved.Some? then saved.value in options else default in options)
    ensures r.Some? ==> r.value.value == (if saved.Some? then saved.value else default)
    ensures r.Some? ==> (r.value.index < |options| && options[r.value.index] == r.value.value
      && forall j :: 0 <= j < r.value.index ==> options[j] != r.value.value)
  {
    var v := if saved.Some? then saved.value else default;
    var k := IndexOf(options, v);
    if k >= 0 then Some(Choice(k, v)) else None
  }

  /** Round trip: with saving on and options without duplicates, the value stored by
      choosing entry i brings the dropdown back to entry i. */
  lemma {:induction false} ChoiceRoundTrip(options: seq<int>, i: nat, ints: map<string, int>, key: string, default: int)
    requires NoDup(options) && i < |options|
    ensures Loaded(options, Saved(ints[key := options[i]], key, true), default) == Some(Choice(i, options[i]))
  {
    IndexOfNoDup(options, i);
  }
}
