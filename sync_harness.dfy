/**
 * Two windows of one application: each has its own provider and
 * translation-library instance, and both share the persisted store and the IPC
 * channel. A user change in window A is broadcast once, delivered to window B,
 * and B's application of it is never echoed back, even when B's presentation
 * layer calls `setLanguage` again before B's zero-delay timer fires.
 */
module SyncHarness {
  import opened Wrappers
  import opened Languages
  import opened I18nContext

  /**
   * Window A sets `lang` and the channel delivers the broadcast to window B:
   * both windows, the store and both libraries are then on `lang`, and B's flag
   * is raised. Whatever tick-free `echo` B then handles before its timer fires
   * (its presentation layer calling `setLanguage`, or anything else), the
   * channel carries exactly the one broadcast from A.
   */
  lemma TwoWindowsNoEcho(a: Window, b: Window, env: Shared, lang: SupportedLanguage, echo: seq<Event>)
    requires !a.isExternalUpdate && a.bridge.canBroadcast && b.bridge.canListen
    requires NoTick(echo)
    ensures var sa := SetLanguageStep(Snapshot(a, env), lang);
      var delivered := sa.env.sent[|sa.env.sent| - 1].language;
      var sb := ReceiveStep(Snapshot(b, sa.env), delivered);
      && delivered == lang
      && Run(sb, echo).env.sent == env.sent + [Broadcast(a.id, lang)]
      && sa.win.language == lang && sb.win.language == lang
      && sb.env.stored == Some(lang)
      && sa.win.i18n.applied == a.i18n.applied + [lang]
      && sb.win.i18n.applied == b.i18n.applied + [lang]
      && sa.win.i18n.language == lang && sb.win.i18n.language == lang
      && sb.win.isExternalUpdate
  {
    var sa := SetLanguageStep(Snapshot(a, env), lang);
    assert sa.env.sent == env.sent + [Broadcast(a.id, lang)];
    var sb := ReceiveStep(Snapshot(b, sa.env), lang);
    ReceivedValueNotEchoed(Snapshot(b, sa.env), lang, echo);
  }

  /**
   * Once B's timer has fired, B is back to idle: a later local change in B is
   * broadcast again. The suppression covers only the synchronous consequences
   * of a receive.
   */
  lemma BroadcastResumesAfterTick(b: Window, env: Shared, payload: SupportedLanguage, lang: SupportedLanguage)
    requires b.bridge.canListen && b.bridge.canBroadcast
    ensures var sb := TickStep(ReceiveStep(Snapshot(b, env), payload));
      && !sb.win.isExternalUpdate
      && SetLanguageStep(sb, lang).env.sent == env.sent + [Broadcast(b.id, lang)]
  {
  }

  /**
   * The same scenario on the objects: A's `setLanguage`, delivery of the last
   * broadcast to B's listener, and optionally B's presentation layer calling
   * B's `setLanguage` with the language it was just given.
   */
  method PropagateUserChange(a: I18nProvider, b: I18nProvider, lang: SupportedLanguage, reentrant: bool)
    requires a != b && a.i18n != b.i18n
    requires a.store == b.store && a.channel == b.channel
    requires a.Valid() && b.Valid()
    requires !a.isExternalUpdate && a.bridge.canBroadcast && b.bridge.canListen
    modifies a, b, a.store, a.channel, a.i18n, b.i18n
    ensures a.channel.sent == old(a.channel.sent) + [Broadcast(a.id, lang)]
    ensures a.language == lang && b.language == lang
    ensures a.store.entry == Some(lang)
    ensures a.i18n.applied == old(a.i18n.applied) + [lang]
    ensures b.i18n.applied == old(b.i18n.applied) + [lang] + (if reentrant then [lang] else [])
    ensures b.isExternalUpdate && !a.isExternalUpdate
    ensures a.Valid() && b.Valid()
  {
    a.SetLanguage(lang);
    var delivered := a.channel.sent[|a.channel.sent| - 1].language;
    b.OnLanguageChange(delivered);
    if reentrant {
      b.SetLanguage(b.language);
    }
  }

  /**
   * Two windows opened on an empty store with the default language: after A's
   * user change to Korean both windows, the store and both libraries are on
   * Korean, each library was asked to apply it exactly once, and one broadcast
   * was sent.
   */
  method TwoWindowScenario() returns (a: I18nProvider, b: I18nProvider)
    ensures a.language == "ko" && b.language == "ko"
    ensures a.store == b.store && a.store.entry == Some("ko")
    ensures a.channel == b.channel && a.channel.sent == [Broadcast(a.id, "ko")]
    ensures a.i18n.applied == ["ko"] && b.i18n.applied == ["ko"]
  {
    var store := new LocalStore(None);
    var channel := new IpcChannel();
    var ia := new I18next();
    var ib := new I18next();
    var bridge := Bridge(true, true);
    a := new I18nProvider(1, bridge, true, store, channel, ia, ProviderDefaultLanguage);
    b := new I18nProvider(2, bridge, true, store, channel, ib, ProviderDefaultLanguage);
    assert a.language == "en" && ia.applied == [];
    PropagateUserChange(a, b, "ko", false);
  }
}
