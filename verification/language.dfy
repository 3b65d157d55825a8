/** The language setting: a code that is always one of the offered languages. */
module Language {
  import opened Seqs

  datatype LanguageEntry = LanguageEntry(code: string, name: string)

  /** `LANGUAGES`, the default first. */
  function Languages(): seq<LanguageEntry> {
    [LanguageEntry("pt-BR", "Português"), LanguageEntry("en-US", "English")]
  }

  function DefaultLanguage(): string {
    "pt-BR"
  }

  function CodeIs(code: string): LanguageEntry -> bool {
    (l: LanguageEntry) => l.code == code
  }

  /** `LANGUAGES.some(l => l.code === code)`. */
  predicate Known(code: string) {
    exists k :: 0 <= k < |Languages()| && Languages()[k].code == code
  }

  /** The initial language: the stored value when it is a known code (the stored value
      is absent as `None`), otherwise the default. */
  function InitialLanguage(stored: Option<string>): (l: string)
    ensures Known(l)
    ensures stored.Some? && Known(stored.value) ==> l == stored.value
    ensures !(stored.Some? && Known(stored.value)) ==> l == DefaultLanguage()
  {
    assert Languages()[0].code == DefaultLanguage();
    if stored.Some? && stored.value != "" && Known(stored.value) then stored.value else DefaultLanguage()
  }

  /** `setLanguage`: a known code is taken, anything else is ignored. */
  function SetLanguage(language: string, code: string): (l: string)
    ensures Known(code) ==> l == code
    ensures !Known(code) ==> l == language
    ensures Known(language) ==> Known(l)
  {
    if Known(code) then code else language
  }

  /** Every reachable setting is a known code: the initial one is, and every change keeps
      it so, whatever codes are requested. */
  lemma {:induction false} AlwaysKnown(stored: Option<string>, requests: seq<string>)
    ensures Known(Replay(InitialLanguage(stored), requests))
  {
    ReplayKeepsKnown(InitialLanguage(stored), requests);
  }

  /** The setting after a series of `setLanguage` calls. */
  function Replay(language: string, requests: seq<string>): string
    decreases |requests|
  {
    if |requests| == 0 then language else Replay(SetLanguage(language, requests[0]), requests[1..])
  }

  lemma {:induction false} ReplayKeepsKnown(language: string, requests: seq<string>)
    requires Known(language)
    ensures Known(Replay(language, requests))
    decreases |requests|
  {
    if |requests| > 0 {
      ReplayKeepsKnown(SetLanguage(language, requests[0]), requests[1..]);
    }
  }

  /** `currentLanguage`: the entry with the current code, else the first entry. */
  function CurrentLanguage(language: string): (e: LanguageEntry)
    ensures e in Languages()
    ensures Known(language) ==> e.code == language
    ensures !Known(language) ==> e == Languages()[0]
  {
    match Find(Languages(), CodeIs(language))
    case Some(l) => l
    case None => Languages()[0]
  }
}
