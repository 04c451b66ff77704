# Language synchronisation and documentation links of the desktop renderer

A Dafny model of two pieces of a desktop chat/agent application's renderer:

- **Cross-window language synchronisation.** Each window runs an `I18nProvider`.
  It holds the current interface language and an `isExternalUpdate` flag that
  suppresses echoes. It persists the choice in local storage and keeps the
  translation library on the same language. It sends every local change to the
  other windows over IPC. When a window receives a change, it applies the change
  without sending it back. A zero-delay timer lowers the flag afterwards.
- **Documentation-link registry.** A closed set of documented features. Each
  maps to a path under the documentation site and two translation keys. There
  is an English default-string table, the legacy English `DOCS` table, and
  accessors for URLs, localised info and translation keys.

## Layout

- `wrappers.dfy`, module `Wrappers`: `Option`, with `GetOr` as the `??` operator.
- `languages.dfy`, module `Languages`: the supported set `["en", "ko"]`. It
  also holds the `SupportedLanguage` subset type and the library's `lng`,
  `fallbackLng` and `supportedLngs` options.
- `i18n_context.dfy`, module `I18nContext`. One window is modelled as a value,
  a `Snapshot`. It has a `Window` part owned by that window: the React state,
  the flag, the pending timers and the library's language with its call log. It
  also has a `Shared` part seen by every window: the stored entry and the
  broadcast log. Each trigger is a step function: `Mount`, `SetLanguageStep`,
  `ReceiveStep` and `TickStep`. `Run` replays a sequence of `Event`s. The lemmas
  about these functions state the source's promises. The same module also holds
  the objects the source mutates: `LocalStore`, `IpcChannel`, `I18next` and
  `I18nProvider`. The provider's constructor and its methods `SetLanguage`,
  `OnLanguageChange` and `Tick` are proved to move the window and the shared
  state exactly as `Mount`, `SetLanguageStep`, `ReceiveStep` and `TickStep` do.
  `I18next.ChangeLanguage` is proved against `LanguageChanged`. `LocalStore.Set`
  and `IpcChannel.Send` state their new field values directly.
- `sync_harness.dfy`, module `SyncHarness`: two windows that share one store and
  one channel. It states the no-echo property both on values and on objects.
- `doc_links.dfy`, module `DocLinks`: the registry as pure functions over the
  `DocFeature` datatype.

The zero-delay `setTimeout` is modelled by a counter of pending timers
(`pendingResets`) and an explicit `Tick`. Each tick fires one timer and lowers
the flag; with no timer pending it does nothing. `typeof window === 'undefined'`
is the parameter `windowDefined`. Whether the preload bridge offers
`broadcastLanguage` and `onLanguageChange` is the field `Bridge(canBroadcast,
canListen)`. A window without `onLanguageChange` registers no listener, so a
delivery to it has no effect. The translation library is reduced to its current
language plus the log of `changeLanguage` calls.

## Model

| member | source | states |
|---|---|---|
| `Wrappers.Option.GetOr` | apps/electron/src/renderer/context/I18nContext.tsx:38 | `stored ?? defaultLanguage`: the wrapped value when there is one, otherwise the default |
| `Languages.SupportedExactly` | apps/electron/src/renderer/i18n/index.ts:6-7 | a code is supported iff it is `"en"` or `"ko"`; the list has two distinct entries |
| `Languages.EmptyNotSupported` | apps/electron/src/renderer/i18n/index.ts:6 | the empty string is not supported, so the truthiness test before the membership test changes nothing |
| `Languages.LibraryOptions` | apps/electron/src/renderer/i18n/index.ts:16-18 | the start-up language and the fallback are `"en"`, both supported; the library accepts exactly `SUPPORTED_LANGUAGES` |
| `I18nContext.StorageGet` | apps/electron/src/renderer/context/I18nContext.tsx:20 | reading the entry gives the stored string, or `''` when nothing is stored |
| `I18nContext.LoadStoredLanguage` | apps/electron/src/renderer/context/I18nContext.tsx:18-25 | returns a value iff running in a window and the entry is a non-empty member of the supported set; that value is the stored string itself |
| `I18nContext.SaveLanguage` | apps/electron/src/renderer/context/I18nContext.tsx:27-29 | the store entry becomes the language; the broadcast log is untouched |
| `I18nContext.SaveLoadRoundTrip` | apps/electron/src/renderer/context/I18nContext.tsx:18-29 | loading after saving a supported code returns that code |
| `I18nContext.InitialLanguage` | apps/electron/src/renderer/context/I18nContext.tsx:31-38 | the valid stored code if there is one, otherwise `defaultLanguage` |
| `I18nContext.LanguageChanged` | apps/electron/src/renderer/context/I18nContext.tsx:73 | after `changeLanguage(lng)` the library is on `lng` and the call is logged once more |
| `I18nContext.Mount` | apps/electron/src/renderer/context/I18nContext.tsx:31-49 | the window starts on the initial language with the flag lowered and no timer pending; the library is called only when its language differs, and ends on the window's language |
| `I18nContext.MountInv` | apps/electron/src/renderer/context/I18nContext.tsx:38-49 | a freshly mounted window satisfies the window invariant |
| `I18nContext.SetLanguageStep` | apps/electron/src/renderer/context/I18nContext.tsx:70-78 | `setLanguage(x)` always sets the state, the store and the library to `x` and logs one `changeLanguage` call; the flag and timers stay; the log keeps its old entries and grows by exactly one `Broadcast(id, x)` iff the flag is lowered and the bridge can broadcast, and otherwise stays the same |
| `I18nContext.ReceiveStep` | apps/electron/src/renderer/context/I18nContext.tsx:52-65 | the listener never broadcasts; an unsupported payload, or a window with no listener, leaves the whole snapshot unchanged; a supported payload raises the flag, sets state, store and library to the payload, logs one `changeLanguage` call and leaves one more reset pending, so the flag is still raised when the handler returns |
| `I18nContext.TickStep` | apps/electron/src/renderer/context/I18nContext.tsx:61-63 | with a timer pending, the tick lowers the flag and uses up exactly one timer; it never changes the language, the library, its call log or anything shared; with no timer pending it is a no-op |
| `I18nContext.ApplyInv` | apps/electron/src/renderer/context/I18nContext.tsx:40-78 | every trigger keeps the invariant: a raised flag has a reset pending, and the library shows the window's language |
| `I18nContext.RunInv` | apps/electron/src/renderer/context/I18nContext.tsx:40-78 | the invariant holds after any sequence of triggers |
| `I18nContext.SuppressedRunSendsNothing` | apps/electron/src/renderer/context/I18nContext.tsx:57-77 | while the flag is raised and no timer fires, no sequence of local sets and receives broadcasts anything, and the flag stays raised |
| `I18nContext.ReceivedValueNotEchoed` | apps/electron/src/renderer/context/I18nContext.tsx:55-77 | after a supported payload is received, nothing the window does before its tick sends a broadcast |
| `I18nContext.SetLanguageTwice` | apps/electron/src/renderer/context/I18nContext.tsx:70-73 | a second `setLanguage` with the same code leaves the state, store and library language as the first left them, yet calls `changeLanguage` again |
| `I18nContext.RestartRestoresLanguage` | apps/electron/src/renderer/context/I18nContext.tsx:18-38 | a window mounted after a `setLanguage(x)` starts on `x`, whatever its default |
| `I18nContext.CorruptStoreFallsBack` | apps/electron/src/renderer/context/I18nContext.tsx:18-38 | a stored value outside the supported set yields the default language at mount |
| `I18nContext.LocalStore.Set` | apps/electron/src/renderer/context/I18nContext.tsx:28 | the entry becomes the written value |
| `I18nContext.IpcChannel.Send` | apps/electron/src/renderer/context/I18nContext.tsx:76 | one broadcast from the sender is appended to the channel log |
| `I18nContext.I18next.constructor` | apps/electron/src/renderer/i18n/index.ts:13-16 | a fresh library instance is on the `lng` option with no calls made |
| `I18nContext.I18next.ChangeLanguage` | apps/electron/src/renderer/context/I18nContext.tsx:73 | the instance moves as `LanguageChanged` says |
| `I18nContext.SaveLanguageTo` | apps/electron/src/renderer/context/I18nContext.tsx:27-29 | the store entry becomes the language |
| `I18nContext.I18nProvider.constructor` | apps/electron/src/renderer/context/I18nContext.tsx:31-49 | the new provider's window is `Mount` of the store entry and the library's prior state, and it satisfies the invariant |
| `I18nContext.I18nProvider.SetLanguage` | apps/electron/src/renderer/context/I18nContext.tsx:70-78 | the window and the shared state move exactly as `SetLanguageStep`, and the invariant is kept |
| `I18nContext.I18nProvider.OnLanguageChange` | apps/electron/src/renderer/context/I18nContext.tsx:52-68 | the window and the shared state move exactly as `ReceiveStep`, and the invariant is kept |
| `I18nContext.I18nProvider.Tick` | apps/electron/src/renderer/context/I18nContext.tsx:61-63 | the window moves exactly as `TickStep`, and the invariant is kept |
| `SyncHarness.TwoWindowsNoEcho` | apps/electron/src/renderer/context/I18nContext.tsx:55-77 | A's change is broadcast once and delivered to B; whatever tick-free echo B then runs, the log holds exactly the one broadcast from A; both windows, the store and both libraries are on the new code, and B's flag is raised |
| `SyncHarness.BroadcastResumesAfterTick` | apps/electron/src/renderer/context/I18nContext.tsx:61-77 | once B's timer fires, B is idle again, and its next local change is broadcast |
| `SyncHarness.PropagateUserChange` | apps/electron/src/renderer/context/I18nContext.tsx:55-77 | on objects: A's `setLanguage`, delivery to B, and an optional re-entrant `setLanguage` in B add exactly one broadcast; everything ends on the new code; each library logs one call, plus one for the re-entrant call |
| `SyncHarness.TwoWindowScenario` | apps/electron/src/renderer/context/I18nContext.tsx:31-77 | two windows on an empty store start in English; after A switches to Korean, both windows and the store are on Korean, each library applied it exactly once, and one broadcast was sent |
| `DocLinks.FeatureNamesDistinct` | packages/shared/src/docs/doc-links.ts:10-22 | distinct features have distinct string keys, so rebuilding a record from the entries keeps every feature |
| `DocLinks.DocConfigOf` | packages/shared/src/docs/doc-links.ts:40-101 | every configured path starts with a single `/` followed by a segment |
| `DocLinks.TitleKeysHaveDefaults` | packages/shared/src/docs/doc-links.ts:40-129 | every configured title key is in `DEFAULT_STRINGS` |
| `DocLinks.SummaryKeysHaveDefaults` | packages/shared/src/docs/doc-links.ts:40-129 | every configured summary key is in `DEFAULT_STRINGS` |
| `DocLinks.ConfigKeysHaveDefaults` | packages/shared/src/docs/doc-links.ts:40-129 | every configured title key and summary key has an entry in `DEFAULT_STRINGS` |
| `DocLinks.DefaultDocInfo` | packages/shared/src/docs/doc-links.ts:136-143 | one feature's English entry: the configured path, and the default strings of the keys `getDocTranslationKeys` returns |
| `DocLinks.Docs` | packages/shared/src/docs/doc-links.ts:135-144 | `DOCS`, keyed by feature name, has an entry for every feature, equal to its English entry, and no other keys |
| `DocLinks.GetDocUrl` | packages/shared/src/docs/doc-links.ts:149-151 | the URL is the base URL followed by the configured path, with exactly one `/` after the base |
| `DocLinks.GetDocInfo` | packages/shared/src/docs/doc-links.ts:158-160 | the feature's English entry, with the configured path |
| `DocLinks.GetLocalizedDocInfo` | packages/shared/src/docs/doc-links.ts:171-178 | the configured path; title and summary are `t` applied to the keys `getDocTranslationKeys` returns |
| `DocLinks.GetDocTranslationKeys` | packages/shared/src/docs/doc-links.ts:184-190 | exactly the configured title and summary keys, both of which have default strings |
| `DocLinks.DocUrlsDistinct` | packages/shared/src/docs/doc-links.ts:149-151 | distinct features get distinct URLs |
| `DocLinks.DocInfoIsDefaultLocalized` | packages/shared/src/docs/doc-links.ts:135-178 | `getDocInfo(f)` is the `DOCS` entry under `f`'s name, and equals the localised info under any translation function that returns the default strings on their keys |
| `DocLinks.AllFeaturesListed` | packages/shared/src/docs/doc-links.ts:10-22 | the entry list of the configuration covers every feature |
| `DocLinks.PathsDistinct` | packages/shared/src/docs/doc-links.ts:40-101 | distinct features have distinct paths |
| `DocLinks.DefaultStringsCoverExactlyTheConfiguredKeys` | packages/shared/src/docs/doc-links.ts:104-129 | a key has a default string iff some feature's configuration uses it |

## Behaviour of the code worth knowing

- `setLanguage` calls `changeLanguage` even when the language is unchanged
  (`SetLanguageTwice`).
- The store is read with the default `''`, which the truthiness test rejects
  (`StorageGet`, `LoadStoredLanguage`).
- The listener is registered only when `onLanguageChange` exists
  (`Bridge.canListen`, `ReceiveStep`).
- A second message received before the first reset timer fires leaves two
  timers pending. The first of them to fire lowers the flag (`TickStep`).

## Left out

- JSON serialisation in the local-storage helper and the name of the storage
  key. The store is a single `Option<string>` entry. A stored non-string value
  is not modelled.
- React's machinery: re-renders, batching of `setLanguageState` (the model
  assigns at once), effect dependencies, and removing or re-registering the
  listener when the `i18n` instance changes.
- The `useI18n` error raised outside a provider, and the context object itself.
- The translation library's internals: the `init` call, resource loading, and
  the asynchronous promise of `changeLanguage`. The library is a current
  language plus a call log. The `interpolation` option is not modelled.
- Real IPC: delivery order across windows, and delivery to windows that open
  later. The harness hands A's last broadcast to B's listener directly.
- The JavaScript event loop. `Tick` is an explicit event. Which timer fires
  first among several pending ones is not distinguished; in the source too,
  every timer lowers the same flag.
- Validation of `setLanguage`'s argument: the TypeScript type is the only check on its
  argument. The model states that check as the `SupportedLanguage` subset type.
- The menu, shortcuts page and onboarding steps. They are presentation only,
  with no state to model.
