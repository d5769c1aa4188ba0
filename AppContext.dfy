/** The application-wide state: language, theme, signed-in user, household, voice switch and
    location, changed only through a reducer; and the translation lookup. */
module AppContext {
  import opened Wrappers
  import opened Types
  import Calculations

  datatype AppState = AppState(
    language: Language,
    theme: Theme,
    currentUser: Option<User>,
    currentHousehold: Option<Household>,
    isVoiceEnabled: bool,
    userLocation: string
  )

  /** The six actions the reducer knows, and any other action tag. */
  datatype Action =
    | SetLanguage(language: Language)
    | SetTheme(theme: Theme)
    | SetUser(user: Option<User>)
    | SetHousehold(household: Option<Household>)
    | ToggleVoice(enabled: bool)
    | SetLocation(location: string)
    | Unrecognized(tag: string)

  const InitialState: AppState := AppState(En, Light, None, None, false, "US")

  /** `appReducer`: each action replaces its own field of the state with its payload. */
  function AppReducer(state: AppState, action: Action): (s: AppState)
    ensures s.language == (if action.SetLanguage? then action.language else state.language)
    ensures s.theme == (if action.SetTheme? then action.theme else state.theme)
    ensures s.currentUser == (if action.SetUser? then action.user else state.currentUser)
    ensures s.currentHousehold == (if action.SetHousehold? then action.household else state.currentHousehold)
    ensures s.isVoiceEnabled == (if action.ToggleVoice? then action.enabled else state.isVoiceEnabled)
    ensures s.userLocation == (if action.SetLocation? then action.location else state.userLocation)
  {
    match action
    case SetLanguage(l) => state.(language := l)
    case SetTheme(t) => state.(theme := t)
    case SetUser(u) => state.(currentUser := u)
    case SetHousehold(h) => state.(currentHousehold := h)
    case ToggleVoice(v) => state.(isVoiceEnabled := v)
    case SetLocation(c) => state.(userLocation := c)
    case Unrecognized(_) => state
  }

  /** An unknown action leaves the state as it was. */
  lemma UnrecognizedIsIdentity(state: AppState, tag: string)
    ensures AppReducer(state, Unrecognized(tag)) == state
  {
  }

  /** Dispatching the same action twice is dispatching it once. */
  lemma ReducerIdempotent(state: AppState, action: Action)
    ensures AppReducer(AppReducer(state, action), action) == AppReducer(state, action)
  {
  }

  /** Which field an action writes; the unknown action writes none. */
  function Target(action: Action): int {
    match action
    case SetLanguage(_) => 0
    case SetTheme(_) => 1
    case SetUser(_) => 2
    case SetHousehold(_) => 3
    case ToggleVoice(_) => 4
    case SetLocation(_) => 5
    case Unrecognized(_) => 6
  }

  /** Actions on different fields commute; on the same field the later one wins. */
  lemma ReducerFieldsIndependent(state: AppState, a: Action, b: Action)
    ensures Target(a) != Target(b) ==>
              AppReducer(AppReducer(state, a), b) == AppReducer(AppReducer(state, b), a)
    ensures Target(a) == Target(b) && !a.Unrecognized? ==>
              AppReducer(AppReducer(state, a), b) == AppReducer(state, b)
  {
  }

  /** The initial state is English, light, signed out, without a household, voice off, in
      the United States, whose grid factor the estimator then uses. */
  lemma InitialStateDefaults()
    ensures InitialState.language == En && InitialState.theme == Light
    ensures InitialState.currentUser.None? && InitialState.currentHousehold.None?
    ensures !InitialState.isVoiceEnabled
    ensures Calculations.ElectricityFactor(Some(InitialState.userLocation)) == 0.855
  {
    Calculations.MissingLocationIsUS(Some(InitialState.userLocation));
  }

  // ---------------------------------------------------------------------------
  // Translation lookup
  // ---------------------------------------------------------------------------

  /** Per language, the translated string of each key. The catalogue itself is data and not
      part of this model; the lookup works on any table. */
  type Translations = map<Language, map<string, string>>

  /** `t(key)`: the translation in the current language when there is a non-empty one,
      otherwise the key itself. */
  function Translate(table: Translations, language: Language, key: string): (r: string)
    ensures r == key || (language in table && key in table[language] && r == table[language][key])
    ensures (language in table && key in table[language] && table[language][key] != "") ==>
              r == table[language][key]
    ensures r == "" ==> key == ""
  {
    if language in table && key in table[language] && table[language][key] != "" then table[language][key]
    else key
  }

  /** A key with no usable translation is shown as written. */
  lemma MissingTranslationShowsKey(table: Translations, language: Language, key: string)
    requires language !in table || key !in table[language] || table[language][key] == ""
    ensures Translate(table, language, key) == key
  {
  }
}
