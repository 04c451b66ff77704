/**
 * The per-window language state of the renderer and its cross-window
 * synchronisation (apps/electron/src/renderer/context/I18nContext.tsx).
 *
 * The first half describes one window as a value: a `Window` (the provider's
 * React state, its echo-suppression ref, the timers it scheduled and the
 * translation library's language) beside the `Shared` part every window of the
 * application sees (the persisted store entry and the log of IPC broadcasts).
 * Each trigger is a function from one `Snapshot` to the next. The second half
 * holds the objects the source mutates (store, channel, library instance,
 * provider) as classes whose methods are proved against those functions.
 */
module I18nContext {
  import opened Wrappers
  import opened Languages

  /** The `defaultLanguage` prop's default. */
  const ProviderDefaultLanguage: SupportedLanguage := "en"

  /** One `broadcastLanguage` call, tagged with the window that made it. */
  datatype Broadcast = Broadcast(sender: nat, language: SupportedLanguage)

  /**
   * Which parts of the preload bridge exist: `window.electronAPI?.broadcastLanguage`
   * and `window.electronAPI?.onLanguageChange`.
   */
  datatype Bridge = Bridge(canBroadcast: bool, canListen: bool)

  /** The translation library's view: its current language and every `changeLanguage` call so far. */
  datatype Presentation = Presentation(language: string, applied: seq<string>)

  /** The state one window owns. */
  datatype Window = Window(
    id: nat,
    bridge: Bridge,
    language: SupportedLanguage,  // the provider's `language` state
    isExternalUpdate: bool,       // the `isExternalUpdate` ref
    pendingResets: nat,           // zero-delay timers scheduled and not yet fired
    i18n: Presentation)

  /** The state all windows share: the persisted language entry and the broadcasts sent. */
  datatype Shared = Shared(stored: Option<string>, sent: seq<Broadcast>)

  datatype Snapshot = Snapshot(win: Window, env: Shared)

  /** What one window may be asked to do. */
  datatype Event = LocalSet(lang: SupportedLanguage) | Receive(payload: string) | Tick

  // ---------------------------------------------------------------------------
  // Persistence

  /** `storage.get(KEYS.language, '')`: the entry, or the empty string when there is none. */
  function StorageGet(stored: Option<string>): (r: string)
    ensures stored.None? ==> r == ""
    ensures stored.Some? ==> r == stored.value
  {
    stored.GetOr("")
  }

  /**
   * `loadStoredLanguage`: the persisted value when the code runs in a window and
   * the value is a non-empty member of the supported set, otherwise nothing.
   */
  function LoadStoredLanguage(windowDefined: bool, stored: Option<string>): (r: Option<SupportedLanguage>)
    ensures r.Some? <==> windowDefined && stored.Some? && stored.value != "" && stored.value in SupportedLanguages
    ensures r.Some? ==> Some(r.value) == stored
  {
    if !windowDefined then None
    else
      var raw := StorageGet(stored);
      if raw != "" && IsSupported(raw) then Some(raw) else None
  }

  /** `saveLanguage`: the store entry becomes `lang`; the broadcast log is untouched. */
  function SaveLanguage(env: Shared, lang: SupportedLanguage): (r: Shared)
    ensures r.stored == Some(lang)
    ensures r.sent == env.sent
  {
    env.(stored := Some(lang))
  }

  /** Saving a supported code and loading it back, in a window, yields that code. */
  lemma SaveLoadRoundTrip(env: Shared, lang: SupportedLanguage)
    ensures LoadStoredLanguage(true, SaveLanguage(env, lang).stored) == Some(lang)
  {
  }

  // ---------------------------------------------------------------------------
  // Mount

  /** The initial `language` state: `stored ?? defaultLanguage`. */
  function InitialLanguage(windowDefined: bool, stored: Option<string>, defaultLanguage: SupportedLanguage): (r: SupportedLanguage)
    ensures windowDefined && stored.Some? && IsSupported(stored.value) ==> r == stored.value
    ensures !(windowDefined && stored.Some? && IsSupported(stored.value)) ==> r == defaultLanguage
  {
    LoadStoredLanguage(windowDefined, stored).GetOr(defaultLanguage)
  }

  /** `i18n.changeLanguage(lng)`: the library adopts `lng` and records the call. */
  function LanguageChanged(p: Presentation, lng: string): (r: Presentation)
    ensures r.language == lng
    ensures r.applied == p.applied + [lng]
  {
    Presentation(lng, p.applied + [lng])
  }

  /**
   * The provider's first render and its mount effect: the initial language is
   * chosen, the flag starts lowered with no timer pending, and the library is
   * told to change language only when its current language differs.
   */
  function Mount(id: nat, bridge: Bridge, windowDefined: bool, stored: Option<string>,
                 i18n: Presentation, defaultLanguage: SupportedLanguage): (w: Window)
    ensures w.id == id && w.bridge == bridge
    ensures w.language == InitialLanguage(windowDefined, stored, defaultLanguage)
    ensures !w.isExternalUpdate && w.pendingResets == 0
    ensures w.i18n.language == w.language
    ensures w.i18n.applied == if i18n.language == w.language then i18n.applied
                              else i18n.applied + [w.language]
  {
    var lang := InitialLanguage(windowDefined, stored, defaultLanguage);
    var p := if i18n.language != lang then LanguageChanged(i18n, lang) else i18n;
    Window(id, bridge, lang, false, 0, p)
  }

  // ---------------------------------------------------------------------------
  // Triggers

  /**
   * `setLanguage(newLang)`: update the state, persist, tell the library, then
   * broadcast unless an external update is being applied or the bridge lacks
   * `broadcastLanguage`. Exactly one broadcast of `newLang` is appended when the
   * flag is lowered and the bridge can broadcast; otherwise the log is unchanged.
   */
  function SetLanguageStep(s: Snapshot, newLang: SupportedLanguage): (r: Snapshot)
    ensures r.win.language == newLang && r.env.stored == Some(newLang)
    ensures r.win.i18n == Presentation(newLang, s.win.i18n.applied + [newLang])
    ensures r.win.isExternalUpdate == s.win.isExternalUpdate && r.win.pendingResets == s.win.pendingResets
    ensures r.win.id == s.win.id && r.win.bridge == s.win.bridge
    ensures |r.env.sent| >= |s.env.sent| && r.env.sent[..|s.env.sent|] == s.env.sent
    ensures |r.env.sent| == |s.env.sent| + 1 <==> !s.win.isExternalUpdate && s.win.bridge.canBroadcast
    ensures |r.env.sent| != |s.env.sent| ==> |r.env.sent| == |s.env.sent| + 1 && r.env.sent[|s.env.sent|] == Broadcast(s.win.id, newLang)
  {
    var w := s.win.(language := newLang, i18n := LanguageChanged(s.win.i18n, newLang));
    var env := SaveLanguage(s.env, newLang);
    var env' := if !s.win.isExternalUpdate && s.win.bridge.canBroadcast
                then env.(sent := env.sent + [Broadcast(s.win.id, newLang)])
                else env;
    Snapshot(w, env')
  }

  /**
   * The `onLanguageChange` listener. Without that bridge member no listener is
   * registered and nothing happens; an unsupported payload is ignored; a
   * supported one raises the flag, updates the state, persists, tells the
   * library and schedules the flag's reset, which has not run when the handler
   * returns. The listener never broadcasts.
   */
  function ReceiveStep(s: Snapshot, payload: string): (r: Snapshot)
    ensures r.env.sent == s.env.sent
    ensures payload !in SupportedLanguages ==> r == s
    ensures !s.win.bridge.canListen ==> r == s
    ensures payload in SupportedLanguages && s.win.bridge.canListen ==>
      && r.win.isExternalUpdate
      && r.win.language == payload
      && r.env.stored == Some(payload)
      && r.win.i18n == Presentation(payload, s.win.i18n.applied + [payload])
      && r.win.pendingResets == s.win.pendingResets + 1
      && r.win.id == s.win.id && r.win.bridge == s.win.bridge
  {
    if !s.win.bridge.canListen || !IsSupported(payload) then s
    else
      var w := s.win.(isExternalUpdate := true,
                      language := payload,
                      i18n := LanguageChanged(s.win.i18n, payload),
                      pendingResets := s.win.pendingResets + 1);
      Snapshot(w, SaveLanguage(s.env, payload))
  }

  /**
   * One scheduled zero-delay timer fires and lowers the flag, using up that
   * timer; nothing else changes. With no timer pending nothing happens.
   */
  function TickStep(s: Snapshot): (r: Snapshot)
    ensures r.env == s.env
    ensures r.win.language == s.win.language && r.win.i18n == s.win.i18n
    ensures r.win.id == s.win.id && r.win.bridge == s.win.bridge
    ensures s.win.pendingResets > 0 ==> !r.win.isExternalUpdate && r.win.pendingResets == s.win.pendingResets - 1
    ensures s.win.pendingResets == 0 ==> r == s
  {
    if s.win.pendingResets == 0 then s
    else Snapshot(s.win.(isExternalUpdate := false, pendingResets := s.win.pendingResets - 1), s.env)
  }

  function Apply(s: Snapshot, e: Event): Snapshot {
    match e
    case LocalSet(lang) => SetLanguageStep(s, lang)
    case Receive(payload) => ReceiveStep(s, payload)
    case Tick => TickStep(s)
  }

  /** The window after handling `events` in order. */
  function Run(s: Snapshot, events: seq<Event>): Snapshot
    decreases |events|
  {
    if events == [] then s else Run(Apply(s, events[0]), events[1..])
  }

  predicate NoTick(events: seq<Event>) {
    forall i :: 0 <= i < |events| ==> !events[i].Tick?
  }

  /**
   * What every window keeps true: a raised flag always has a timer pending that
   * will lower it, and the library shows the provider's language.
   */
  predicate Inv(w: Window) {
    (w.isExternalUpdate ==> w.pendingResets > 0) && w.i18n.language == w.language
  }

  // ---------------------------------------------------------------------------
  // Properties of the triggers

  /** Mount establishes the invariant. */
  lemma MountInv(id: nat, bridge: Bridge, windowDefined: bool, stored: Option<string>,
                 i18n: Presentation, defaultLanguage: SupportedLanguage)
    ensures Inv(Mount(id, bridge, windowDefined, stored, i18n, defaultLanguage))
  {
  }

  /** Every trigger preserves the invariant. */
  lemma ApplyInv(s: Snapshot, e: Event)
    requires Inv(s.win)
    ensures Inv(Apply(s, e).win)
    ensures Apply(s, e).win.id == s.win.id && Apply(s, e).win.bridge == s.win.bridge
  {
  }

  lemma {:induction false} RunInv(s: Snapshot, events: seq<Event>)
    requires Inv(s.win)
    ensures Inv(Run(s, events).win)
    ensures Run(s, events).win.id == s.win.id && Run(s, events).win.bridge == s.win.bridge
    decreases |events|
  {
    if events != [] {
      ApplyInv(s, events[0]);
      RunInv(Apply(s, events[0]), events[1..]);
    }
  }

  /**
   * While the flag is raised and no timer fires, whatever the window is asked
   * to do (local sets or further receives) broadcasts nothing, and the flag
   * stays raised.
   */
  lemma {:induction false} SuppressedRunSendsNothing(s: Snapshot, events: seq<Event>)
    requires s.win.isExternalUpdate && NoTick(events)
    ensures Run(s, events).env.sent == s.env.sent
    ensures Run(s, events).win.isExternalUpdate
    decreases |events|
  {
    if events != [] {
      assert !events[0].Tick?;
      var s' := Apply(s, events[0]);
      assert s'.env.sent == s.env.sent && s'.win.isExternalUpdate;
      assert NoTick(events[1..]) by {
        forall i | 0 <= i < |events[1..]| ensures !events[1..][i].Tick? {
          assert events[1..][i] == events[i + 1];
        }
      }
      SuppressedRunSendsNothing(s', events[1..]);
    }
  }

  /** A received value is never re-broadcast by anything the window does before its tick. */
  lemma ReceivedValueNotEchoed(s: Snapshot, payload: string, echo: seq<Event>)
    requires s.win.bridge.canListen && payload in SupportedLanguages && NoTick(echo)
    ensures Run(ReceiveStep(s, payload), echo).env.sent == s.env.sent
  {
    SuppressedRunSendsNothing(ReceiveStep(s, payload), echo);
  }

  /**
   * Calling `setLanguage` twice with the same code: the second call leaves the
   * state and the library's language as the first left them; the library is
   * still called again, since the source calls it unconditionally.
   */
  lemma SetLanguageTwice(s: Snapshot, lang: SupportedLanguage)
    ensures var r1 := SetLanguageStep(s, lang);
      var r2 := SetLanguageStep(r1, lang);
      && r2.win.language == r1.win.language == lang
      && r2.win.i18n.language == r1.win.i18n.language
      && r2.env.stored == r1.env.stored
      && r2.win.i18n.applied == r1.win.i18n.applied + [lang]
  {
  }

  /** After a restart, a window mounts with the language the last `setLanguage` persisted. */
  lemma RestartRestoresLanguage(s: Snapshot, lang: SupportedLanguage, id: nat, bridge: Bridge,
                                i18n: Presentation, defaultLanguage: SupportedLanguage)
    ensures Mount(id, bridge, true, SetLanguageStep(s, lang).env.stored, i18n, defaultLanguage).language == lang
  {
  }

  /** A corrupt or foreign store entry falls back to the default language. */
  lemma CorruptStoreFallsBack(id: nat, bridge: Bridge, raw: string, i18n: Presentation,
                              defaultLanguage: SupportedLanguage)
    requires raw !in SupportedLanguages
    ensures Mount(id, bridge, true, Some(raw), i18n, defaultLanguage).language == defaultLanguage
  {
  }

  // ---------------------------------------------------------------------------
  // The objects the source mutates

  /** The renderer's local storage, reduced to the one entry under `KEYS.language`. */
  class LocalStore {
    var entry: Option<string>

    constructor (entry: Option<string>)
      ensures this.entry == entry
    {
      this.entry := entry;
    }

    /** `storage.set(KEYS.language, value)`. */
    method Set(value: string)
      modifies this
      ensures entry == Some(value)
    {
      entry := Some(value);
    }
  }

  /** The inter-process channel, reduced to the log of what was broadcast on it. */
  class IpcChannel {
    var sent: seq<Broadcast>

    constructor ()
      ensures sent == []
    {
      sent := [];
    }

    /** `window.electronAPI.broadcastLanguage`, sent from window `sender`. */
    method Send(sender: nat, lang: SupportedLanguage)
      modifies this
      ensures sent == old(sent) + [Broadcast(sender, lang)]
    {
      sent := sent + [Broadcast(sender, lang)];
    }
  }

  /** A window's translation-library instance: its current language and its `changeLanguage` calls. */
  class I18next {
    var language: string
    var applied: seq<string>

    /** The instance as `init` leaves it: on the `lng` option, with no calls made yet. */
    constructor ()
      ensures language == LibraryOptions().lng && applied == []
    {
      language := LibraryOptions().lng;
      applied := [];
    }

    function View(): Presentation
      reads this
    {
      Presentation(language, applied)
    }

    method ChangeLanguage(lng: string)
      modifies this
      ensures View() == LanguageChanged(old(View()), lng)
    {
      language := lng;
      applied := applied + [lng];
    }
  }

  /** `saveLanguage`. */
  method SaveLanguageTo(store: LocalStore, lang: SupportedLanguage)
    modifies store
    ensures store.entry == Some(lang)
  {
    store.Set(lang);
  }

  /** `I18nProvider` of one window, with the store and channel it shares and its own library instance. */
  class I18nProvider {
    const id: nat
    const bridge: Bridge
    const store: LocalStore
    const channel: IpcChannel
    const i18n: I18next
    var language: SupportedLanguage
    var isExternalUpdate: bool
    var pendingResets: nat

    function Win(): Window
      reads this, i18n
    {
      Window(id, bridge, language, isExternalUpdate, pendingResets, i18n.View())
    }

    function Env(): Shared
      reads store, channel
    {
      Shared(store.entry, channel.sent)
    }

    function Snap(): Snapshot
      reads this, i18n, store, channel
    {
      Snapshot(Win(), Env())
    }

    ghost predicate Valid()
      reads this, i18n
    {
      Inv(Win())
    }

    /** First render and mount effect (listener registration is implicit in `bridge.canListen`). */
    constructor (id: nat, bridge: Bridge, windowDefined: bool, store: LocalStore, channel: IpcChannel,
                 i18n: I18next, defaultLanguage: SupportedLanguage)
      modifies i18n
      ensures this.store == store && this.channel == channel && this.i18n == i18n
      ensures Win() == Mount(id, bridge, windowDefined, store.entry, old(i18n.View()), defaultLanguage)
      ensures Valid()
    {
      this.id := id;
      this.bridge := bridge;
      this.store := store;
      this.channel := channel;
      this.i18n := i18n;
      var stored := LoadStoredLanguage(windowDefined, store.entry);
      language := stored.GetOr(defaultLanguage);
      isExternalUpdate := false;
      pendingResets := 0;
      new;
      if i18n.language != language {
        i18n.ChangeLanguage(language);
      }
    }

    method SetLanguage(newLang: SupportedLanguage)
      requires Valid()
      modifies this, store, channel, i18n
      ensures Snap() == SetLanguageStep(old(Snap()), newLang)
      ensures Valid()
    {
      language := newLang;
      SaveLanguageTo(store, newLang);
      i18n.ChangeLanguage(newLang);
      if !isExternalUpdate && bridge.canBroadcast {
        channel.Send(id, newLang);
      }
    }

    /** The `onLanguageChange` listener, invoked by the channel with another window's payload. */
    method OnLanguageChange(newLang: string)
      requires Valid()
      modifies this, store, i18n
      ensures Snap() == ReceiveStep(old(Snap()), newLang)
      ensures Valid()
    {
      if bridge.canListen && IsSupported(newLang) {
        isExternalUpdate := true;
        language := newLang;
        SaveLanguageTo(store, newLang);
        i18n.ChangeLanguage(newLang);
        pendingResets := pendingResets + 1;
      }
    }

    /** One pending zero-delay timer fires. */
    method Tick()
      requires Valid()
      modifies this
      ensures Snap() == TickStep(old(Snap()))
      ensures Valid()
    {
      if pendingResets > 0 {
        isExternalUpdate := false;
        pendingResets := pendingResets - 1;
      }
    }
  }
}
