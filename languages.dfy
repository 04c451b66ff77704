/**
 * The supported interface languages and the option block handed to the
 * translation library when it is initialised (apps/electron/src/renderer/i18n/index.ts).
 */
module Languages {

  /** `SUPPORTED_LANGUAGES`, in declaration order. */
  const SupportedLanguages: seq<string> := ["en", "ko"]

  predicate IsSupported(s: string) {
    s in SupportedLanguages
  }

  /** `SupportedLanguage`: the union type of the members of `SUPPORTED_LANGUAGES`. */
  type SupportedLanguage = s: string | IsSupported(s) witness "en"

  /** The options of the library's `init` call that this application fixes. */
  datatype InitOptions = InitOptions(lng: string, fallbackLng: string, supportedLngs: seq<string>)

  /**
   * The `lng`, `fallbackLng` and `supportedLngs` options: both the start-up
   * language and the fallback are English, and the library accepts exactly the
   * supported set.
   */
  function LibraryOptions(): (o: InitOptions)
    ensures o.lng == "en" && IsSupported(o.lng)
    ensures o.fallbackLng == "en" && IsSupported(o.fallbackLng)
    ensures o.supportedLngs == SupportedLanguages
  {
    InitOptions("en", "en", SupportedLanguages)
  }

  /** The supported set is exactly English and Korean, each listed once. */
  lemma SupportedExactly(s: string)
    ensures IsSupported(s) <==> s == "en" || s == "ko"
    ensures |SupportedLanguages| == 2 && SupportedLanguages[0] != SupportedLanguages[1]
  {
  }

  /** The empty string is not a supported code, so a truthiness test in front of a membership test changes nothing. */
  lemma EmptyNotSupported()
    ensures !IsSupported("")
  {
  }
}
