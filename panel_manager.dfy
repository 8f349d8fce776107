/** PanelManager.cs: the pause panel and the settings panel, driven by button
    clicks and by events on the bus. Time.timeScale, the two panels' active flags
    and the calls made on GameInputManager are fields of the manager. */
module PanelManagement {
  import opened Common
  import opened GameEvents
  import opened EventBus

  /** The calls PanelManager makes on GameInputManager.Instance, in order. */
  datatype InputCall =
    | DisableMoveInput | DisableSightInput | ShowCursor
    | EnableMoveInput | EnableSightInput | HideCursor
    | DisablePausePanel | EnablePausePanel

  /** What PanelManager controls: isPaused, Time.timeScale, the two panels and the
      input calls issued so far. */
  datatype Panels = Panels(
    isPaused: bool,
    timeScale: real,
    pausePanelActive: bool,
    settingPanelActive: bool,
    input: seq<InputCall>)

  /** The game runs exactly when it is not paused, and the pause panel is only
      shown while paused. */
  ghost predicate Consistent(p: Panels) {
    p.timeScale == (if p.isPaused then 0.0 else 1.0) && (p.pausePanelActive ==> p.isPaused)
  }

  // ---------------------------------------------------------------------------
  // Transitions

  /** The panel part of OnEnable: a game that is not paused is made to run with the
      pause panel hidden; a paused one is left alone. */
  function Enabled(p: Panels): (r: Panels)
    ensures !p.isPaused ==> r.timeScale == 1.0 && !r.pausePanelActive
    ensures p.isPaused ==> r == p
    ensures r.isPaused == p.isPaused && r.settingPanelActive == p.settingPanelActive && r.input == p.input
  {
    if !p.isPaused then p.(timeScale := 1.0, pausePanelActive := false) else p
  }

  /** ResumeGame: leave the pause state and hand control back to the player. */
  function Resumed(p: Panels): (r: Panels)
    ensures !r.isPaused && !r.pausePanelActive && r.timeScale == 1.0
    ensures r.input == p.input + [EnableMoveInput, EnableSightInput, HideCursor]
    ensures r.settingPanelActive == p.settingPanelActive
  {
    Panels(false, 1.0, false, p.settingPanelActive, p.input + [EnableMoveInput, EnableSightInput, HideCursor])
  }

  /** Pause: toggle isPaused; entering the pause freezes time, shows the panel and takes
      the input away, leaving it is ResumeGame. */
  function Toggled(p: Panels): (r: Panels)
    ensures r.isPaused == !p.isPaused
    ensures r.isPaused ==> (r.timeScale == 0.0 && r.pausePanelActive
      && r.input == p.input + [DisableMoveInput, DisableSightInput, ShowCursor])
    ensures !r.isPaused ==> r == Resumed(p)
    ensures r.settingPanelActive == p.settingPanelActive
  {
    if !p.isPaused then
      p.(isPaused := true, timeScale := 0.0, pausePanelActive := true,
         input := p.input + [DisableMoveInput, DisableSightInput, ShowCursor])
    else Resumed(p)
  }

  /** The panel part of OnSettingClicked, after the SettingEvent was published:
      the pause panel is hidden and the pause-panel input disabled; the settings panel
      is opened when this manager's own SettingEvent handler ran. */
  function SettingShown(p: Panels, handlerRan: bool): (r: Panels)
    ensures !r.pausePanelActive && r.input == p.input + [DisablePausePanel]
    ensures r.settingPanelActive == (p.settingPanelActive || handlerRan)
    ensures r.isPaused == p.isPaused && r.timeScale == p.timeScale
  {
    var q := if handlerRan then p.(settingPanelActive := true) else p;
    q.(pausePanelActive := false, input := q.input + [DisablePausePanel])
  }

  /** OnBackClicked: re-enable the pause-panel input, close the settings panel and show
      the pause panel again if the game is paused. */
  function BackFromSettings(p: Panels): (r: Panels)
    ensures !r.settingPanelActive && r.input == p.input + [EnablePausePanel]
    ensures r.pausePanelActive == (p.isPaused || p.pausePanelActive)
    ensures r.isPaused == p.isPaused && r.timeScale == p.timeScale
  {
    var q := p.(input := p.input + [EnablePausePanel], settingPanelActive := false);
    if p.isPaused then q.(pausePanelActive := true) else q
  }

  // ---------------------------------------------------------------------------
  // Properties

  /** Every transition keeps time and the pause panel in step with isPaused. */
  lemma TransitionsKeepConsistent(p: Panels, handlerRan: bool)
    requires Consistent(p)
    ensures Consistent(Enabled(p)) && Consistent(Resumed(p)) && Consistent(Toggled(p))
    ensures Consistent(SettingShown(p, handlerRan)) && Consistent(BackFromSettings(p))
  {
  }

  /** Pausing twice returns to a running game whose pause panel is hidden; the input
      is taken away and then given back. */
  lemma PauseTwiceResumes(p: Panels)
    requires !p.isPaused
    ensures var r := Toggled(Toggled(p));
      !r.isPaused && r.timeScale == 1.0 && !r.pausePanelActive
      && r.input == p.input + [DisableMoveInput, DisableSightInput, ShowCursor,
                               EnableMoveInput, EnableSightInput, HideCursor]
  {
    var q := Toggled(p);
    assert q.input == p.input + [DisableMoveInput, DisableSightInput, ShowCursor];
    assert Toggled(q) == Resumed(q);
  }

  /** Opening the settings from the pause panel and going back shows the pause panel
      again exactly when the game is paused; time is not touched. */
  lemma SettingsRoundTrip(p: Panels)
    requires Consistent(p)
    ensures var r := BackFromSettings(SettingShown(p, true));
      r.pausePanelActive == p.isPaused && !r.settingPanelActive
      && r.isPaused == p.isPaused && r.timeScale == p.timeScale
      && r.input == p.input + [DisablePausePanel, EnablePausePanel]
  {
    var q := SettingShown(p, true);
    assert !q.pausePanelActive;
    assert BackFromSettings(q).input == q.input + [EnablePausePanel];
  }

  // ---------------------------------------------------------------------------
  // Subscriptions

  /** The registry after OnEnable's three Subscribe calls. */
  function SubscribedAll(m: Registry, pause: HandlerId, cont: HandlerId, setting: HandlerId): (r: Registry)
    ensures pause in Registered(r, GamePause) && cont in Registered(r, Continue) && setting in Registered(r, Setting)
  {
    Subscribed(Subscribed(Subscribed(m, GamePause, pause), Continue, cont), Setting, setting)
  }

  /** The registry after OnDisable's three Unsubscribe calls. */
  function UnsubscribedAll(m: Registry, pause: HandlerId, cont: HandlerId, setting: HandlerId): Registry {
    Unsubscribed(Unsubscribed(Unsubscribed(m, GamePause, pause), Continue, cont), Setting, setting)
  }

  /** Subscribe and Unsubscribe on different event types commute. */
  lemma UnsubscribeCommutes(m: Registry, u: EventType, h2: HandlerId, t: EventType, h: HandlerId)
    requires u != t
    ensures Unsubscribed(Subscribed(m, u, h2), t, h) == Subscribed(Unsubscribed(m, t, h), u, h2)
  {
    if u in m && h2 in m[u] {
      CommutesWhenPresent(m, u, h2, t, h);
    } else {
      CommutesWhenAdded(m, u, h2, t, h);
    }
  }

  lemma CommutesWhenPresent(m: Registry, u: EventType, h2: HandlerId, t: EventType, h: HandlerId)
    requires u != t && u in m && h2 in m[u]
    ensures Unsubscribed(Subscribed(m, u, h2), t, h) == Subscribed(Unsubscribed(m, t, h), u, h2)
  {
    UnsubscribeElsewhere(m, t, h, u);
    var n := Unsubscribed(m, t, h);
    assert Subscribed(m, u, h2) == m;
    assert Subscribed(n, u, h2) == n;
  }

  lemma CommutesWhenAdded(m: Registry, u: EventType, h2: HandlerId, t: EventType, h: HandlerId)
    requires u != t && (u !in m || h2 !in m[u])
    ensures Unsubscribed(Subscribed(m, u, h2), t, h) == Subscribed(Unsubscribed(m, t, h), u, h2)
  {
    if t !in m {
      var l := if u in m then m[u] + [h2] else [h2];
      assert Subscribed(m, u, h2) == m[u := l];
      assert Unsubscribed(m[u := l], t, h) == m[u := l];
    } else if RemoveFirst(m[t], h) == [] {
      AddedThenEmptied(m, u, h2, t, h);
    } else {
      AddedThenShortened(m, u, h2, t, h);
    }
  }

  lemma AddedThenEmptied(m: Registry, u: EventType, h2: HandlerId, t: EventType, h: HandlerId)
    requires u != t && (u !in m || h2 !in m[u])
    requires t in m && RemoveFirst(m[t], h) == []
    ensures Unsubscribed(Subscribed(m, u, h2), t, h) == Subscribed(Unsubscribed(m, t, h), u, h2)
  {
    var l := if u in m then m[u] + [h2] else [h2];
    var n := m - {t};
    assert Subscribed(m, u, h2) == m[u := l];
    assert Unsubscribed(m[u := l], t, h) == m[u := l] - {t};
    assert Unsubscribed(m, t, h) == n;
    assert u in n <==> u in m;
    if u in m {
      assert n[u] == m[u];
    }
    assert Subscribed(n, u, h2) == n[u := l];
    UpdatesCommute(m, u, l, t, []);
  }

  lemma AddedThenShortened(m: Registry, u: EventType, h2: HandlerId, t: EventType, h: HandlerId)
    requires u != t && (u !in m || h2 !in m[u])
    requires t in m && RemoveFirst(m[t], h) != []
    ensures Unsubscribed(Subscribed(m, u, h2), t, h) == Subscribed(Unsubscribed(m, t, h), u, h2)
  {
    var l := if u in m then m[u] + [h2] else [h2];
    var rest := RemoveFirst(m[t], h);
    var n := m[t := rest];
    assert Subscribed(m, u, h2) == m[u := l];
    assert Unsubscribed(m[u := l], t, h) == m[u := l][t := rest];
    assert Unsubscribed(m, t, h) == n;
    assert u in n <==> u in m;
    if u in m {
      assert n[u] == m[u];
    }
    assert Subscribed(n, u, h2) == n[u := l];
    UpdatesCommute(m, u, l, t, rest);
  }

  /** Updates of two different keys of a map commute, and so do an update and a removal. */
  lemma UpdatesCommute<K, V>(m: map<K, V>, u: K, l: V, t: K, rest: V)
    requires u != t
    ensures m[u := l][t := rest] == m[t := rest][u := l]
    ensures m[u := l] - {t} == (m - {t})[u := l]
  {
  }

  /** Unsubscribing from one event type leaves every other type's list alone. */
  lemma UnsubscribeElsewhere(m: Registry, t: EventType, h: HandlerId, u: EventType)
    requires u != t
    ensures u in Unsubscribed(m, t, h) <==> u in m
    ensures Registered(Unsubscribed(m, t, h), u) == Registered(m, u)
  {
  }

  /** After OnDisable none of the three handlers is registered for its event type,
      whether or not it was subscribed before. */
  lemma DisableRemovesHandlers(m: Registry, pause: HandlerId, cont: HandlerId, setting: HandlerId)
    requires WellFormed(m)
    ensures var r := UnsubscribedAll(m, pause, cont, setting);
      pause !in Registered(r, GamePause) && cont !in Registered(r, Continue)
      && setting !in Registered(r, Setting)
  {
    var m1 := Unsubscribed(m, GamePause, pause);
    var m2 := Unsubscribed(m1, Continue, cont);
    UnsubscribedWellFormed(m, GamePause, pause);
    UnsubscribedWellFormed(m1, Continue, cont);
    UnsubscribedWellFormed(m2, Setting, setting);
    UnsubscribeElsewhere(m1, Continue, cont, GamePause);
    UnsubscribeElsewhere(m2, Setting, setting, GamePause);
    UnsubscribeElsewhere(m2, Setting, setting, Continue);
  }

  /** OnDisable undoes OnEnable: when none of the three handlers was registered for
      its event type, enabling and then disabling the manager leaves the bus's
      registry exactly as it was. */
  lemma DisableUndoesEnable(m: Registry, pause: HandlerId, cont: HandlerId, setting: HandlerId)
    requires WellFormed(m)
    requires pause !in Registered(m, GamePause)
    requires cont !in Registered(m, Continue)
    requires setting !in Registered(m, Setting)
    ensures UnsubscribedAll(SubscribedAll(m, pause, cont, setting), pause, cont, setting) == m
  {
    var m1 := Subscribed(m, GamePause, pause);
    var m2 := Subscribed(m1, Continue, cont);
    SubscribedWellFormed(m, GamePause, pause);
    SubscribeIdempotent(m, GamePause, pause);
    SubscribeIdempotent(m, Continue, cont);
    // removing the pause handler first
    UnsubscribeCommutes(m2, Setting, setting, GamePause, pause);
    UnsubscribeCommutes(m1, Continue, cont, GamePause, pause);
    UnsubscribeUndoesSubscribe(m, GamePause, pause);
    assert Unsubscribed(Subscribed(m2, Setting, setting), GamePause, pause)
      == Subscribed(Subscribed(m, Continue, cont), Setting, setting);
    // then the continue handler
    var n1 := Subscribed(m, Continue, cont);
    UnsubscribeCommutes(n1, Setting, setting, Continue, cont);
    UnsubscribeUndoesSubscribe(m, Continue, cont);
    assert Unsubscribed(Subscribed(n1, Setting, setting), Continue, cont) == Subscribed(m, Setting, setting);
    // and last the settings handler
    UnsubscribeUndoesSubscribe(m, Setting, setting);
  }

  // ---------------------------------------------------------------------------
  // The component

  class PanelManager {
    /** The process-wide bus the manager subscribes to and publishes on. */
    const bus: GameEventBus
    /** The delegates OnPauseClicked, GameContinue and OpenSettingPanel bound to this instance. */
    const pauseHandler: HandlerId
    const continueHandler: HandlerId
    const settingHandler: HandlerId

    var isPaused: bool
    var timeScale: real
    var pausePanelActive: bool
    var settingPanelActive: bool
    var input: seq<InputCall>

    function State(): Panels
      reads this
    {
      Panels(isPaused, timeScale, pausePanelActive, settingPanelActive, input)
    }

    ghost predicate Valid()
      reads this, bus
    {
      bus.Valid()
    }

    /** A fresh component: not paused, time at the engine's default scale 1. */
    constructor (bus: GameEventBus, pauseHandler: HandlerId, continueHandler: HandlerId, settingHandler: HandlerId,
                 pausePanelActive: bool, settingPanelActive: bool)
      requires bus.Valid()
      ensures Valid()
      ensures this.bus == bus && this.pauseHandler == pauseHandler
      ensures this.continueHandler == continueHandler && this.settingHandler == settingHandler
      ensures State() == Panels(false, 1.0, pausePanelActive, settingPanelActive, [])
    {
      this.bus := bus;
      this.pauseHandler := pauseHandler;
      this.continueHandler := continueHandler;
      this.settingHandler := settingHandler;
      isPaused := false;
      timeScale := 1.0;
      this.pausePanelActive := pausePanelActive;
      this.settingPanelActive := settingPanelActive;
      input := [];
    }

    /** OnEnable: subscribe the three handlers, then make sure a game that is not
        paused runs with its pause panel hidden. */
    method OnEnable()
      requires Valid()
      modifies this, bus
      ensures Valid()
      ensures bus.handlers == SubscribedAll(old(bus.handlers), pauseHandler, continueHandler, settingHandler)
      ensures bus.history == old(bus.history)
      ensures State() == Enabled(old(State()))
    {
      bus.Subscribe(GamePause, pauseHandler);
      bus.Subscribe(Continue, continueHandler);
      bus.Subscribe(Setting, settingHandler);
      if !isPaused {
        timeScale := 1.0;
        pausePanelActive := false;
      }
    }

    /** OnDisable: unsubscribe the same three handlers. */
    method OnDisable()
      requires Valid()
      modifies bus
      ensures Valid()
      ensures bus.handlers == UnsubscribedAll(old(bus.handlers), pauseHandler, continueHandler, settingHandler)
      ensures bus.history == old(bus.history)
    {
      bus.Unsubscribe(GamePause, pauseHandler);
      bus.Unsubscribe(Continue, continueHandler);
      bus.Unsubscribe(Setting, settingHandler);
    }

    /** OnPauseClicked, the GamePauseEvent handler, and the Pause it calls. */
    method OnPauseClicked()
      modifies this
      ensures State() == Toggled(old(State()))
    {
      isPaused := !isPaused;
      if isPaused {
        timeScale := 0.0;
        pausePanelActive := true;
        input := input + [DisableMoveInput, DisableSightInput, ShowCursor];
      } else {
        ResumeGame();
      }
    }

    /** GameContinue, the ContinueEvent handler. */
    method GameContinue()
      modifies this
      ensures State() == Resumed(old(State()))
    {
      ResumeGame();
    }

    method ResumeGame()
      modifies this
      ensures State() == Resumed(old(State()))
    {
      isPaused := false;
      pausePanelActive := false;
      timeScale := 1.0;
      input := input + [EnableMoveInput, EnableSightInput, HideCursor];
    }

    /** OpenSettingPanel, the SettingEvent handler. */
    method OpenSettingPanel()
      modifies this
      ensures State() == old(State()).(settingPanelActive := true)
    {
      settingPanelActive := true;
    }

    /** The main menu button: publish one MenuEvent. The manager has no handler for
        it; `react` says what the other subscribers do to the bus. */
    method OnMenuClicked(react: HandlerId -> Reaction) returns (invoked: seq<HandlerId>)
      requires Valid()
      modifies bus
      ensures Valid()
      ensures bus.history == Logged(old(bus.history), Menu)
      ensures invoked == Reverse(Registered(old(bus.handlers), Menu))
    {
      invoked := bus.Publish(MenuEvent, react);
    }

    /** The settings button: publish one SettingEvent (running OpenSettingPanel if it
        is subscribed), hide the pause panel and disable the pause-panel input. */
    method OnSettingClicked(react: HandlerId -> Reaction) returns (invoked: seq<HandlerId>)
      requires Valid()
      requires react(settingHandler) == Returns
      modifies this, bus
      ensures Valid()
      ensures bus.history == Logged(old(bus.history), Setting)
      ensures invoked == Reverse(Registered(old(bus.handlers), Setting))
      ensures State() == SettingShown(old(State()), settingHandler in invoked)
    {
      invoked := bus.Publish(SettingEvent, react);
      if settingHandler in invoked {
        OpenSettingPanel();
      }
      pausePanelActive := false;
      input := input + [DisablePausePanel];
    }

    /** The continue button: publish one ContinueEvent; when GameContinue is
        subscribed it resumes the game. */
    method OnContinueClicked(react: HandlerId -> Reaction) returns (invoked: seq<HandlerId>)
      requires Valid()
      requires react(continueHandler) == Returns
      modifies this, bus
      ensures Valid()
      ensures bus.history == Logged(old(bus.history), Continue)
      ensures invoked == Reverse(Registered(old(bus.handlers), Continue))
      ensures State() == if continueHandler in invoked then Resumed(old(State())) else old(State())
    {
      invoked := bus.Publish(ContinueEvent, react);
      if continueHandler in invoked {
        GameContinue();
      }
    }

    /** The back button of the settings panel. */
    method OnBackClicked()
      modifies this
      ensures State() == BackFromSettings(old(State()))
    {
      input := input + [EnablePausePanel];
      settingPanelActive := false;
      if isPaused {
        pausePanelActive := true;
      }
    }
  }
}
