/** ResolutionManager.cs: the list of distinct screen resolutions offered in a
    dropdown, the resolution applied when an entry is chosen, and the saved width
    and height restored later. Screen.width, Screen.height and Screen.fullScreen
    are fields of the manager; Screen.resolutions and Screen.currentResolution are
    inputs. */
module ResolutionSettings {
  import opened Common
  import opened Text
  import opened SettingsCommon

  const WidthKey: string := "ResolutionWidth"
  const HeightKey: string := "ResolutionHeight"

  /** UnityEngine.Resolution; refreshText is the text of its refreshRateRatio. */
  datatype Resolution = Resolution(width: int, height: int, refreshText: string)

  /** The de-duplication key: "WxH", with "@<rate>Hz" appended when refresh rates are shown. */
  function Key(r: Resolution, showRefreshRate: bool): string {
    var size := IntToDecimal(r.width) + "x" + IntToDecimal(r.height);
    if showRefreshRate then size + "@" + r.refreshText + "Hz" else size
  }

  /** Without refresh rates, the key names the size and nothing else. */
  lemma SizeKey(a: Resolution, b: Resolution)
    ensures Key(a, false) == Key(b, false) <==> a.width == b.width && a.height == b.height
  {
    if Key(a, false) == Key(b, false) {
      assert IntToDecimal(a.width) + "x" + IntToDecimal(a.height)
        == IntToDecimal(a.width) + ['x'] + IntToDecimal(a.height);
      assert IntToDecimal(b.width) + "x" + IntToDecimal(b.height)
        == IntToDecimal(b.width) + ['x'] + IntToDecimal(b.height);
      JoinedIntsInjective(a.width, a.height, b.width, b.height, 'x');
    }
  }

  /** The dropdown text of an entry: "W x H", followed by "  <rate>Hz" when refresh rates are shown. */
  function OptionText(r: Resolution, showRefreshRate: bool): string {
    var size := IntToDecimal(r.width) + " x " + IntToDecimal(r.height);
    if showRefreshRate then size + "  " + r.refreshText + "Hz" else size
  }

  // ---------------------------------------------------------------------------
  // De-duplication

  /** The key of every entry of Screen.resolutions, in order. */
  function Keys(all: seq<Resolution>, showRefreshRate: bool): (keys: seq<string>)
    ensures |keys| == |all| && forall i :: 0 <= i < |all| ==> keys[i] == Key(all[i], showRefreshRate)
  {
    seq(|all|, i requires 0 <= i < |all| => Key(all[i], showRefreshRate))
  }

  /** keys[i] is the first occurrence of its key. */
  predicate IsFirst(keys: seq<string>, i: nat)
    requires i < |keys|
  {
    forall j | 0 <= j < i :: keys[j] != keys[i]
  }

  /** The positions among the first n keys that hold the first occurrence of their key,
      in increasing order. */
  function FirstIndices(keys: seq<string>, n: nat): (idx: seq<nat>)
    requires n <= |keys|
    ensures forall k :: 0 <= k < |idx| ==> idx[k] < n && IsFirst(keys, idx[k])
    ensures forall k, l :: 0 <= k < l < |idx| ==> idx[k] < idx[l]
    ensures forall i :: 0 <= i < n && IsFirst(keys, i) ==> i in idx
    decreases n
  {
    if n == 0 then []
    else
      var rest := FirstIndices(keys, n - 1);
      if IsFirst(keys, n - 1) then rest + [n - 1] else rest
  }

  /** The entries at the given positions. */
  function Pick(all: seq<Resolution>, idx: seq<nat>): (r: seq<Resolution>)
    requires forall k :: 0 <= k < |idx| ==> idx[k] < |all|
    ensures |r| == |idx| && forall k :: 0 <= k < |idx| ==> r[k] == all[idx[k]]
  {
    seq(|idx|, k requires 0 <= k < |idx| => all[idx[k]])
  }

  /** uniqueResolutions after InitializeResolutions: the first entry of every key, in
      the order of Screen.resolutions. */
  function Unique(all: seq<Resolution>, showRefreshRate: bool): seq<Resolution> {
    Pick(all, FirstIndices(Keys(all, showRefreshRate), |all|))
  }

  /** No two entries of the list share a key. */
  lemma UniqueKeysDistinct(all: seq<Resolution>, showRefreshRate: bool)
    ensures var u := Unique(all, showRefreshRate);
      forall a, b :: 0 <= a < b < |u| ==> Key(u[a], showRefreshRate) != Key(u[b], showRefreshRate)
  {
    var keys := Keys(all, showRefreshRate);
    var idx := FirstIndices(keys, |all|);
    var u := Unique(all, showRefreshRate);
    forall a, b | 0 <= a < b < |u| ensures Key(u[a], showRefreshRate) != Key(u[b], showRefreshRate) {
      assert idx[a] < idx[b] && IsFirst(keys, idx[b]);
      assert keys[idx[a]] != keys[idx[b]];
    }
  }

  /** The first position holding the key keys[i]. */
  lemma {:induction false} FirstOccurrence(keys: seq<string>, i: nat) returns (j: nat)
    requires i < |keys|
    ensures j <= i && keys[j] == keys[i] && IsFirst(keys, j)
    decreases i
  {
    if IsFirst(keys, i) {
      j := i;
    } else {
      var k :| 0 <= k < i && keys[k] == keys[i];
      j := FirstOccurrence(keys, k);
    }
  }

  /** Every key of the input is kept, represented by its first occurrence. */
  lemma EveryKeyKept(all: seq<Resolution>, showRefreshRate: bool, i: nat)
    requires i < |all|
    ensures var u := Unique(all, showRefreshRate);
      exists k :: 0 <= k < |u| && Key(u[k], showRefreshRate) == Key(all[i], showRefreshRate)
  {
    var keys := Keys(all, showRefreshRate);
    var idx := FirstIndices(keys, |all|);
    var j := FirstOccurrence(keys, i);
    assert j in idx;
    var k :| 0 <= k < |idx| && idx[k] == j;
    assert Unique(all, showRefreshRate)[k] == all[j];
  }

  /** The list is an order-preserving selection of the input: entry k is the input
      entry at position FirstIndices[k], and those positions increase. */
  lemma UniqueIsSubsequence(all: seq<Resolution>, showRefreshRate: bool)
    ensures var idx := FirstIndices(Keys(all, showRefreshRate), |all|);
      var u := Unique(all, showRefreshRate);
      |u| == |idx| && (forall k :: 0 <= k < |u| ==> idx[k] < |all| && u[k] == all[idx[k]])
      && (forall k, l :: 0 <= k < l < |idx| ==> idx[k] < idx[l])
  {
  }

  /** Without refresh rates, the list holds at most one entry per size. */
  lemma OneEntryPerSize(all: seq<Resolution>, a: nat, b: nat)
    requires a < b < |Unique(all, false)|
    ensures var u := Unique(all, false);
      u[a].width != u[b].width || u[a].height != u[b].height
  {
    UniqueKeysDistinct(all, false);
    SizeKey(Unique(all, false)[a], Unique(all, false)[b]);
  }

  // ---------------------------------------------------------------------------
  // Lookups by size

  /** The first entry with the given width and height, as the loops of
      SetCurrentResolutionInDropdown and LoadSavedResolution find it. */
  function FirstWithSize(rs: seq<Resolution>, width: int, height: int): (r: Option<nat>)
    ensures r.Some? ==> (r.value < |rs| && rs[r.value].width == width && rs[r.value].height == height
      && forall j :: 0 <= j < r.value ==> !(rs[j].width == width && rs[j].height == height))
    ensures r.None? ==> forall j :: 0 <= j < |rs| ==> !(rs[j].width == width && rs[j].height == height)
  {
    if rs == [] then None
    else if rs[0].width == width && rs[0].height == height then Some(0)
    else
      match FirstWithSize(rs[1..], width, height)
      case None => None
      case Some(k) => Some(k + 1)
  }

  /** Without refresh rates, the entry chosen and saved is the one found again by size. */
  lemma ResolutionRoundTrip(all: seq<Resolution>, i: nat, ints: map<string, int>)
    requires i < |Unique(all, false)|
    ensures var r := Unique(all, false)[i];
      var saved := ints[WidthKey := r.width][HeightKey := r.height];
      Saved(saved, WidthKey, true) == Some(r.width) && saved[HeightKey] == r.height
      && FirstWithSize(Unique(all, false), r.width, r.height) == Some(i)
  {
    var u := Unique(all, false);
    forall a, b | 0 <= a < b < |u| ensures u[a].width != u[b].width || u[a].height != u[b].height {
      OneEntryPerSize(all, a, b);
    }
    SizeFoundAt(u, i);
    assert |WidthKey| != |HeightKey|;
  }

  /** In a list with one entry per size, looking up the size of entry i finds i. */
  lemma SizeFoundAt(u: seq<Resolution>, i: nat)
    requires i < |u|
    requires forall a, b :: 0 <= a < b < |u| ==> u[a].width != u[b].width || u[a].height != u[b].height
    ensures FirstWithSize(u, u[i].width, u[i].height) == Some(i)
  {
    var f := FirstWithSize(u, u[i].width, u[i].height);
    assert f.Some?;
  }

  /** With refresh rates shown, two rates of one size are two entries, and saving the
      second restores the first: the saved width and height do not tell them apart. */
  lemma RefreshRateRoundTripMisses()
    ensures var all := [Resolution(1920, 1080, "60"), Resolution(1920, 1080, "144")];
      Unique(all, true) == all
      && FirstWithSize(Unique(all, true), 1920, 1080) == Some(0)
  {
    var all := [Resolution(1920, 1080, "60"), Resolution(1920, 1080, "144")];
    var size := IntToDecimal(1920) + "x" + IntToDecimal(1080);
    var keys := Keys(all, true);
    assert keys[0] == size + "@" + "60" + "Hz" && keys[1] == size + "@" + "144" + "Hz";
    assert |keys[0]| < |keys[1]|;
    assert IsFirst(keys, 0) && IsFirst(keys, 1);
    assert FirstIndices(keys, 2) == [0, 1];
  }

  /** The keys seen after one more step of the de-duplication loop. */
  lemma SeenGrows(keys: seq<string>, i: nat)
    requires i < |keys|
    ensures (set j | 0 <= j < i :: keys[j]) + {keys[i]} == set j | 0 <= j < i + 1 :: keys[j]
  {
    var a := (set j | 0 <= j < i :: keys[j]) + {keys[i]};
    var b := set j | 0 <= j < i + 1 :: keys[j];
    forall x | x in b ensures x in a {
      var j :| 0 <= j < i + 1 && keys[j] == x;
      if j < i { assert keys[j] in set j' | 0 <= j' < i :: keys[j']; }
    }
  }

  /** One step of the de-duplication loop on a key not seen before. */
  lemma DedupKeeps(all: seq<Resolution>, keys: seq<string>, i: nat, unique: seq<Resolution>)
    requires |keys| == |all| && i < |all|
    requires keys[i] !in set j | 0 <= j < i :: keys[j]
    requires unique == Pick(all, FirstIndices(keys, i))
    ensures unique + [all[i]] == Pick(all, FirstIndices(keys, i + 1))
  {
    assert IsFirst(keys, i) by {
      forall j | 0 <= j < i ensures keys[j] != keys[i] {
        assert keys[j] in set j' | 0 <= j' < i :: keys[j'];
      }
    }
    assert FirstIndices(keys, i + 1) == FirstIndices(keys, i) + [i];
  }

  /** One step of the de-duplication loop on a key already seen. */
  lemma DedupSkips(all: seq<Resolution>, keys: seq<string>, i: nat)
    requires |keys| == |all| && i < |all|
    requires keys[i] in set j | 0 <= j < i :: keys[j]
    ensures FirstIndices(keys, i + 1) == FirstIndices(keys, i)
  {
    var j :| 0 <= j < i && keys[j] == keys[i];
    assert !IsFirst(keys, i);
  }

  /** What the de-duplication loop knows after the first i entries: the keys seen so
      far, and the first entry of each of them in input order. */
  ghost predicate DedupState(all: seq<Resolution>, keys: seq<string>, i: nat, seen: set<string>, unique: seq<Resolution>)
    requires |keys| == |all| && i <= |all|
  {
    seen == (set j | 0 <= j < i :: keys[j]) && unique == Pick(all, FirstIndices(keys, i))
  }

  /** One step of the de-duplication loop keeps DedupState. */
  lemma DedupStep(all: seq<Resolution>, keys: seq<string>, i: nat, seen: set<string>, unique: seq<Resolution>)
    requires |keys| == |all| && i < |all|
    requires DedupState(all, keys, i, seen, unique)
    ensures keys[i] !in seen ==> DedupState(all, keys, i + 1, seen + {keys[i]}, unique + [all[i]])
    ensures keys[i] in seen ==> DedupState(all, keys, i + 1, seen, unique)
  {
    SeenGrows(keys, i);
    if keys[i] !in seen {
      DedupKeeps(all, keys, i, unique);
    } else {
      DedupSkips(all, keys, i);
    }
  }

  // ---------------------------------------------------------------------------
  // The component

  class ResolutionManager {
    const showRefreshRate: bool
    const saveSettings: bool
    const prefs: PlayerPrefs
    var uniqueResolutions: seq<Resolution>
    /** The dropdown's labels and selected index. */
    var labels: seq<string>
    var dropdownValue: int
    /** Screen.width, Screen.height and Screen.fullScreen. */
    var screenWidth: int
    var screenHeight: int
    var fullScreen: bool

    constructor (showRefreshRate: bool, saveSettings: bool, prefs: PlayerPrefs, screenWidth: int, screenHeight: int, fullScreen: bool)
      ensures this.showRefreshRate == showRefreshRate && this.saveSettings == saveSettings && this.prefs == prefs
      ensures uniqueResolutions == [] && labels == [] && dropdownValue == 0
      ensures this.screenWidth == screenWidth && this.screenHeight == screenHeight && this.fullScreen == fullScreen
    {
      this.showRefreshRate := showRefreshRate;
      this.saveSettings := saveSettings;
      this.prefs := prefs;
      uniqueResolutions := [];
      labels := [];
      dropdownValue := 0;
      this.screenWidth := screenWidth;
      this.screenHeight := screenHeight;
      this.fullScreen := fullScreen;
    }

    /** InitializeResolutions: keep the first resolution of every key, then fill the dropdown. */
    method InitializeResolutions(all: seq<Resolution>)
      modifies this
      ensures uniqueResolutions == Unique(all, showRefreshRate)
      ensures |labels| == |uniqueResolutions|
      ensures forall k :: 0 <= k < |labels| ==> labels[k] == OptionText(uniqueResolutions[k], showRefreshRate)
      ensures dropdownValue == 0
      ensures screenWidth == old(screenWidth) && screenHeight == old(screenHeight) && fullScreen == old(fullScreen)
    {
      uniqueResolutions := Deduplicated(all);
      PopulateDropdown();
    }

    /** The de-duplication loop, with the HashSet of keys already seen; the key of
        every entry is the one the source builds inside the loop. */
    method Deduplicated(all: seq<Resolution>) returns (unique: seq<Resolution>)
      ensures unique == Unique(all, showRefreshRate)
    {
      var keys := Keys(all, showRefreshRate);
      unique := [];
      var seen: set<string> := {};
      for i := 0 to |all|
        invariant DedupState(all, keys, i, seen, unique)
      {
        var key := keys[i];
        DedupStep(all, keys, i, seen, unique);
        if key !in seen {
          seen := seen + {key};
          unique := unique + [all[i]];
        }
      }
      assert DedupState(all, keys, |all|, seen, unique);
    }

    /** PopulateDropdown: replace the labels by one label per unique resolution;
        ClearOptions puts the selection back on entry 0. */
    method PopulateDropdown()
      modifies this
      ensures |labels| == |uniqueResolutions|
      ensures forall k :: 0 <= k < |labels| ==> labels[k] == OptionText(uniqueResolutions[k], showRefreshRate)
      ensures uniqueResolutions == old(uniqueResolutions) && dropdownValue == 0
      ensures screenWidth == old(screenWidth) && screenHeight == old(screenHeight) && fullScreen == old(fullScreen)
    {
      labels := [];
      dropdownValue := 0;
      var options := OptionTexts(uniqueResolutions);
      labels := labels + options;
    }

    /** The loop of PopulateDropdown that builds the label list. */
    method OptionTexts(rs: seq<Resolution>) returns (options: seq<string>)
      ensures |options| == |rs|
      ensures forall k :: 0 <= k < |rs| ==> options[k] == OptionText(rs[k], showRefreshRate)
    {
      options := [];
      for k := 0 to |rs|
        invariant |options| == k
        invariant forall l :: 0 <= l < k ==> options[l] == OptionText(rs[l], showRefreshRate)
      {
        options := options + [OptionText(rs[k], showRefreshRate)];
      }
    }

    /** The search loop shared by SetCurrentResolutionInDropdown and LoadSavedResolution:
        the first unique resolution of the given size, stopping at the first match. */
    method FindSize(width: int, height: int) returns (found: bool, index: int)
      ensures found <==> FirstWithSize(uniqueResolutions, width, height).Some?
      ensures found ==> index == FirstWithSize(uniqueResolutions, width, height).value
    {
      found, index := false, 0;
      var i := 0;
      while i < |uniqueResolutions|
        invariant 0 <= i <= |uniqueResolutions|
        invariant forall j :: 0 <= j < i ==> !(uniqueResolutions[j].width == width && uniqueResolutions[j].height == height)
      {
        var res := uniqueResolutions[i];
        if res.width == width && res.height == height {
          found, index := true, i;
          break;
        }
        i := i + 1;
      }
    }

    /** SetCurrentResolutionInDropdown: show the first entry of the current size; with
        no such entry the dropdown is left as it is. */
    method SetCurrentResolutionInDropdown(currentWidth: int, currentHeight: int)
      modifies this
      ensures var f := FirstWithSize(uniqueResolutions, currentWidth, currentHeight);
        dropdownValue == if f.Some? then f.value else old(dropdownValue)
      ensures uniqueResolutions == old(uniqueResolutions) && labels == old(labels)
      ensures screenWidth == old(screenWidth) && screenHeight == old(screenHeight) && fullScreen == old(fullScreen)
    {
      var found, currentIndex := FindSize(currentWidth, currentHeight);
      if found {
        dropdownValue := currentIndex;
      }
    }

    /** OnResolutionChanged: an index outside the list is rejected; otherwise the
        entry is applied. */
    method OnResolutionChanged(index: int)
      modifies this, prefs
      ensures !(0 <= index < |uniqueResolutions|) ==> (screenWidth == old(screenWidth)
        && screenHeight == old(screenHeight) && prefs.ints == old(prefs.ints))
      ensures 0 <= index < |uniqueResolutions| ==> (var r := uniqueResolutions[index];
        screenWidth == r.width && screenHeight == r.height
        && prefs.ints == if saveSettings then old(prefs.ints)[WidthKey := r.width][HeightKey := r.height] else old(prefs.ints))
      ensures fullScreen == old(fullScreen) && uniqueResolutions == old(uniqueResolutions)
      ensures labels == old(labels) && dropdownValue == old(dropdownValue)
    {
      if index < 0 || index >= |uniqueResolutions| {
        return;
      }
      ApplyResolution(uniqueResolutions[index]);
    }

    /** ApplyResolution: set the size keeping the full-screen flag, and save it when saving is on. */
    method ApplyResolution(r: Resolution)
      modifies this, prefs
      ensures screenWidth == r.width && screenHeight == r.height && fullScreen == old(fullScreen)
      ensures prefs.ints == if saveSettings then old(prefs.ints)[WidthKey := r.width][HeightKey := r.height] else old(prefs.ints)
      ensures uniqueResolutions == old(uniqueResolutions) && labels == old(labels) && dropdownValue == old(dropdownValue)
    {
      screenWidth, screenHeight := r.width, r.height;
      if saveSettings {
        prefs.SetInt(WidthKey, r.width);
        prefs.SetInt(HeightKey, r.height);
      }
    }

    /** LoadSavedResolution: when saving is on and a width was saved, show and apply the
        first entry of the saved size (a missing height reads as 0); otherwise, or when
        no entry has that size, nothing changes. Nothing is saved again. */
    method LoadSavedResolution()
      modifies this
      ensures var w := Saved(prefs.ints, WidthKey, saveSettings);
        var f := if w.Some? then FirstWithSize(uniqueResolutions, w.value, prefs.GetInt(HeightKey)) else None;
        if f.Some? then
          dropdownValue == f.value && screenWidth == w.value && screenHeight == prefs.GetInt(HeightKey)
        else
          dropdownValue == old(dropdownValue) && screenWidth == old(screenWidth) && screenHeight == old(screenHeight)
      ensures fullScreen == old(fullScreen) && uniqueResolutions == old(uniqueResolutions) && labels == old(labels)
    {
      if saveSettings && prefs.HasKey(WidthKey) {
        var savedWidth := prefs.GetInt(WidthKey);
        var savedHeight := prefs.GetInt(HeightKey);
        var found, i := FindSize(savedWidth, savedHeight);
        if found {
          dropdownValue := i;
          screenWidth, screenHeight := savedWidth, savedHeight;
        }
      }
    }
  }
}
