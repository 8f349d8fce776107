/** The event payloads carried over the bus (GameEventList.cs) and the locale
    identifiers one of them carries. The bus keys its registrations by the
    payload's type, so every payload maps to one EventType. */
module GameEvents {

  /** LocalizationManager.LocaleID: zh = 0 (Chinese), en = 1 (English). */
  datatype LocaleID = Zh | En

  /** The integer value of the enum member, which is also its index among the
      project's available locales. */
  function LocaleIndex(id: LocaleID): (k: nat)
    ensures k < 2
  {
    match id
    case Zh => 0
    case En => 1
  }

  /** The enum member named by code, as Enum.Parse<LocaleID> accepts the two names. */
  function ParseLocale(code: string): (r: LocaleIDResult)
    ensures r.Parsed? <==> code == "zh" || code == "en"
    ensures r.Parsed? ==> LocaleCode(r.id) == code
  {
    if code == "zh" then Parsed(Zh)
    else if code == "en" then Parsed(En)
    else Unparsable(code)
  }

  datatype LocaleIDResult = Parsed(id: LocaleID) | Unparsable(code: string)

  /** The enum member's name, the code that ParseLocale accepts for it. */
  function LocaleCode(id: LocaleID): string {
    match id
    case Zh => "zh"
    case En => "en"
  }

  /** Every LocaleID's name parses back to it. */
  lemma {:induction false} LocaleCodeRoundTrip(id: LocaleID)
    ensures ParseLocale(LocaleCode(id)) == Parsed(id)
  {
    match id
    case Zh =>
    case En =>
  }

  /** The payload classes of GameEventList.cs. */
  datatype GameEvent =
    | MenuEvent
    | SettingEvent
    | ContinueEvent
    | GamePauseEvent
    | LocaleChangeEvent(locale: LocaleID)

  /** typeof(T) for the payload classes: the bus's registration key. */
  datatype EventType = Menu | Setting | Continue | GamePause | LocaleChange

  function TypeOf(e: GameEvent): EventType {
    match e
    case MenuEvent => Menu
    case SettingEvent => Setting
    case ContinueEvent => Continue
    case GamePauseEvent => GamePause
    case LocaleChangeEvent(_) => LocaleChange
  }

  /** Type.Name of the payload class. */
  function Name(t: EventType): string {
    match t
    case Menu => "MenuEvent"
    case Setting => "SettingEvent"
    case Continue => "ContinueEvent"
    case GamePause => "GamePauseEvent"
    case LocaleChange => "LocaleChangeEvent"
  }

  /** Distinct event types have distinct names, so statistics keyed by name lose nothing. */
  lemma NameInjective(t: EventType, u: EventType)
    ensures Name(t) == Name(u) <==> t == u
  {
  }
}
