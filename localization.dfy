/** LocalizationManager.cs and LocalizeDropdown.cs: selecting the game's locale,
    recovering the LocaleID from the name of the locale the engine switched to,
    announcing it on the bus, and relabelling a dropdown in the new language. */
module Localization {
  import opened Common
  import opened GameEvents
  import opened EventBus

  // ---------------------------------------------------------------------------
  // The locale code inside a locale name: Regex.Match(name, @"^.+\((.+)\)$").Groups[1]

  /** The part of s that `$` can close: .NET's `$` matches at the very end and also
      just before a final line feed. */
  function Body(s: string): (b: string)
    ensures b == s || (s == b + ['\n'])
  {
    if |s| > 0 && s[|s| - 1] == '\n' then s[..|s| - 1] else s
  }

  /** The regex matches s with its literal "(" at position p: at least one character
      before it, at least one between it and the closing ")" that ends the body, and
      no line feed anywhere, since `.` does not match one. */
  ghost predicate MatchesAt(s: string, p: int) {
    var b := Body(s);
    '\n' !in b && 1 <= p && p + 2 < |b| && b[p] == '(' && b[|b| - 1] == ')'
  }

  /** The largest p in [1, k] with b[p] == '(' . */
  function LastOpen(b: string, k: int): (r: Option<nat>)
    requires k < |b|
    ensures r.Some? ==> 1 <= r.value <= k && b[r.value] == '('
    ensures forall j :: (if r.Some? then r.value else 0) < j <= k ==> b[j] != '('
    decreases k
  {
    if k < 1 then None
    else if b[k] == '(' then Some(k)
    else LastOpen(b, k - 1)
  }

  /** Groups[1].Value of the match, None when the name does not match. The greedy
      `.+` before the "(" makes the match pick the last possible "(". */
  function ExtractLocaleCode(name: string): (r: Option<string>)
    ensures r.Some? <==> exists p :: MatchesAt(name, p)
    ensures r.Some? ==> exists p :: (MatchesAt(name, p) && r.value == Body(name)[p + 1..|Body(name)| - 1]
      && forall q :: MatchesAt(name, q) ==> q <= p)
  {
    var b := Body(name);
    if '\n' in b || |b| < 4 || b[|b| - 1] != ')' then
      assert forall p :: !MatchesAt(name, p);
      None
    else
      match LastOpen(b, |b| - 3)
      case None =>
        assert forall p :: !MatchesAt(name, p);
        None
      case Some(p) =>
        assert MatchesAt(name, p);
        Some(b[p + 1..|b| - 1])
  }

  /** The locale a name announces: its code parsed by Enum.Parse<LocaleID>; None where
      the source throws (no match leaves an empty code, and an unknown code fails to parse). */
  function LocaleOf(name: string): (r: Option<LocaleID>)
    ensures r.Some? <==> ExtractLocaleCode(name).Some? && ParseLocale(ExtractLocaleCode(name).value).Parsed?
    ensures r.Some? ==> ExtractLocaleCode(name) == Some(LocaleCode(r.value))
  {
    match ExtractLocaleCode(name)
    case None => None
    case Some(code) =>
      match ParseLocale(code)
      case Parsed(id) => Some(id)
      case Unparsable(_) => None
  }

  /** A name of the form "<language> (<code>)" announces the locale with that code, and
      the code is what the regex extracts. */
  lemma LocaleNameRoundTrip(language: string, id: LocaleID)
    requires '\n' !in language
    ensures ExtractLocaleCode(language + " (" + LocaleCode(id) + ")") == Some(LocaleCode(id))
    ensures LocaleOf(language + " (" + LocaleCode(id) + ")") == Some(id)
  {
    var code := LocaleCode(id);
    var name := language + " (" + code + ")";
    var p := |language| + 1;
    assert |code| == 2 && '(' !in code && '\n' !in code;
    assert Body(name) == name;
    assert name[p] == '(';
    assert name[p + 1..|name| - 1] == code;
    assert '\n' !in name by {
      forall i | 0 <= i < |name| ensures name[i] != '\n' {
        if i < |language| { assert name[i] == language[i]; }
        else if i > p && i < |name| - 1 { assert name[i] == code[i - p - 1]; }
      }
    }
    assert MatchesAt(name, p);
    assert name[p + 1] == code[0];
    LocaleCodeRoundTrip(id);
  }

  /** The greedy prefix skips an earlier parenthesis: the code is taken from the last one. */
  lemma NestedParentheses()
    ensures ExtractLocaleCode("Chinese (Simplified) (zh)") == Some("zh")
  {
    var name := "Chinese (Simplified) (zh)";
    assert Body(name) == name;
    assert '\n' !in name;
    assert name[22] == 'z' && name[21] == '(';
    assert LastOpen(name, |name| - 3) == Some(21);
    assert name[22..24] == "zh";
  }

  /** A name without a closing parenthesis at its end gives no code. */
  lemma NoParenthesesNoCode()
    ensures ExtractLocaleCode("English") == None
    ensures LocaleOf("English") == None
  {
    assert Body("English") == "English";
  }

  // ---------------------------------------------------------------------------
  // LocalizationManager

  class LocalizationManager {
    /** The process-wide bus LocaleChangeEvent is published on. */
    const bus: GameEventBus
    /** LocalizationSettings.AvailableLocales.Locales, by name, in project order. */
    const available: seq<string>
    /** LocalizationSettings.SelectedLocale, by name. */
    var selectedLocale: string
    var currentLocale: LocaleID

    ghost predicate Valid()
      reads this, bus
    {
      bus.Valid()
    }

    /** A fresh manager: currentLocale holds the enum's default member, zh. */
    constructor (bus: GameEventBus, available: seq<string>, selectedLocale: string)
      requires bus.Valid()
      ensures Valid()
      ensures this.bus == bus && this.available == available && this.selectedLocale == selectedLocale
      ensures currentLocale == Zh
    {
      this.bus := bus;
      this.available := available;
      this.selectedLocale := selectedLocale;
      currentLocale := Zh;
    }

    /** SetLocale: select the available locale at the enum's integer index. Indexing past
        the available locales throws and selects nothing; `ok` tells the two apart. */
    method SetLocale(id: LocaleID) returns (ok: bool)
      modifies this
      ensures ok <==> LocaleIndex(id) < |available|
      ensures selectedLocale == if ok then available[LocaleIndex(id)] else old(selectedLocale)
      ensures currentLocale == old(currentLocale)
    {
      var k := LocaleIndex(id);
      if k < |available| {
        selectedLocale := available[k];
        ok := true;
      } else {
        ok := false;
      }
    }

    /** GetLocale */
    function GetLocale(): LocaleID
      reads this
    {
      currentLocale
    }

    /** OnLocaleChanged, the engine's SelectedLocaleChanged callback: recover the LocaleID
        from the locale's name, store it, then publish a LocaleChangeEvent carrying it.
        A name the source cannot parse throws before anything is stored or published;
        `published` is None then. */
    method OnLocaleChanged(localeName: string, react: HandlerId -> Reaction)
      returns (published: Option<GameEvent>, invoked: seq<HandlerId>)
      requires Valid()
      modifies this, bus
      ensures Valid()
      ensures published.Some? <==> LocaleOf(localeName).Some?
      ensures published.Some? ==> (currentLocale == LocaleOf(localeName).value
        && published.value == LocaleChangeEvent(currentLocale)
        && bus.history == Logged(old(bus.history), LocaleChange)
        && invoked == Reverse(Registered(old(bus.handlers), LocaleChange)))
      ensures published.None? ==> (currentLocale == old(currentLocale)
        && bus.history == old(bus.history) && bus.handlers == old(bus.handlers) && invoked == [])
      ensures selectedLocale == old(selectedLocale)
    {
      match LocaleOf(localeName)
      case None =>
        published, invoked := None, [];
      case Some(id) =>
        currentLocale := id;
        var e := LocaleChangeEvent(currentLocale);
        invoked := bus.Publish(e, react);
        published := Some(e);
    }
  }

  // ---------------------------------------------------------------------------
  // LocalizeDropdown

  /** The label of each configured option in the current language, in order. */
  ghost predicate LocalizedLabels<K>(labels: seq<string>, options: seq<K>, localize: K -> string) {
    |labels| == |options| && forall i :: 0 <= i < |options| ==> labels[i] == localize(options[i])
  }

  /** The LocalizedString entries are identified by K; localize is
      LocalizedString.GetLocalizedString in the currently selected language. */
  /** The index TMP_Dropdown keeps when assigned `v` with `count` options: `v` clamped
      into the option range. */
  function ClampIndex(v: int, count: nat): (r: int)
    requires count > 0
    ensures 0 <= r < count
    ensures 0 <= v < count ==> r == v
    ensures v < 0 ==> r == 0
    ensures v >= count ==> r == count - 1
  {
    if v < 0 then 0 else if v >= count then count - 1 else v
  }

  class LocalizeDropdown<K> {
    const options: seq<K>
    const bus: GameEventBus
    /** The lambda Start subscribes. */
    const refreshHandler: HandlerId
    /** The TMP_Dropdown's option labels and selected index. */
    var dropdownOptions: seq<string>
    var value: int
    /** The arguments of every onValueChanged notification the dropdown fired, in order. */
    var valueChanges: seq<int>

    ghost predicate Valid()
      reads this, bus
    {
      bus.Valid()
    }

    constructor (options: seq<K>, bus: GameEventBus, refreshHandler: HandlerId, dropdownOptions: seq<string>, value: int)
      requires bus.Valid()
      ensures Valid()
      ensures this.options == options && this.bus == bus && this.refreshHandler == refreshHandler
      ensures this.dropdownOptions == dropdownOptions && this.value == value && valueChanges == []
    {
      this.options := options;
      this.bus := bus;
      this.refreshHandler := refreshHandler;
      this.dropdownOptions := dropdownOptions;
      this.value := value;
      this.valueChanges := [];
    }

    /** Start: register the refresh for every LocaleChangeEvent. */
    method Start()
      requires Valid()
      modifies bus
      ensures Valid()
      ensures bus.handlers == Subscribed(old(bus.handlers), LocaleChange, refreshHandler)
      ensures refreshHandler in Registered(bus.handlers, LocaleChange)
    {
      bus.Subscribe(LocaleChange, refreshHandler);
    }

    /** GetLocalizedOptions: one label per configured option, in order. */
    method GetLocalizedOptions(localize: K -> string) returns (labels: seq<string>)
      ensures LocalizedLabels(labels, options, localize)
    {
      labels := [];
      for i := 0 to |options|
        invariant LocalizedLabels(labels, options[..i], localize)
      {
        labels := labels + [localize(options[i])];
      }
    }

    /** SetOptionText, also the body of the registered refresh: replace every label by
        its translation. ClearOptions silently puts the selection on entry 0; assigning
        the remembered index back then goes through the dropdown's setter, which ignores
        an assignment of the current index or on an empty list and otherwise clamps the
        index and fires onValueChanged with it. */
    method SetOptionText(localize: K -> string)
      modifies this
      ensures LocalizedLabels(dropdownOptions, options, localize)
      ensures old(value) != 0 && |options| > 0 ==>
        value == ClampIndex(old(value), |options|) && valueChanges == old(valueChanges) + [value]
      ensures old(value) == 0 || |options| == 0 ==> value == 0 && valueChanges == old(valueChanges)
      ensures 0 <= old(value) < |options| ==> value == old(value)
    {
      var previousValue := value;
      var localized := GetLocalizedOptions(localize);
      // ClearOptions
      dropdownOptions := [];
      value := 0;
      // AddOptions
      dropdownOptions := dropdownOptions + localized;
      // dropdown.value = previousValue
      if previousValue != value && |dropdownOptions| > 0 {
        value := ClampIndex(previousValue, |dropdownOptions|);
        valueChanges := valueChanges + [value];
      }
    }
  }
}
