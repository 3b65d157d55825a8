/** The three-step screen flow of the main application and the authentication
    gate in front of it. */
module Navigation {
  import opened Seqs
  import opened Items

  datatype Screen = CategorySelection | SuggestionSelection | Player

  /** `MainApp` state: the current screen, the chosen category ids and the session
      handed to the player (`null` as `None`). */
  datatype App = App(screen: Screen, categories: seq<string>, config: Option<SessionConfig>)

  function Initial(): App {
    App(CategorySelection, [], None)
  }

  datatype Event =
    | CategoriesSelected(ids: seq<string>)
    | StartSession(config: SessionConfig)
    | BackToCategories
    | BackToSuggestions
    | EndSession

  /** The handlers: each sets the screen it names and touches only the state it names. */
  function Step(a: App, e: Event): (b: App)
    ensures e.CategoriesSelected? ==> b == a.(screen := SuggestionSelection, categories := e.ids)
    ensures e.StartSession? ==> b == a.(screen := Player, config := Some(e.config))
    ensures e.BackToCategories? ==> b == a.(screen := CategorySelection)
    ensures e.BackToSuggestions? ==> b == a.(screen := SuggestionSelection)
    ensures e.EndSession? ==> b == Initial()
  {
    match e
    case CategoriesSelected(ids) => a.(categories := ids, screen := SuggestionSelection)
    case StartSession(config) => a.(config := Some(config), screen := Player)
    case BackToCategories => a.(screen := CategorySelection)
    case BackToSuggestions => a.(screen := SuggestionSelection)
    case EndSession => App(CategorySelection, [], None)
  }

  /** What is rendered. */
  datatype View = CategoryView | SuggestionView(categoryIds: seq<string>) | PlayerView(config: SessionConfig)

  /** The render guards: the player needs a session, the suggestion screen a non-empty
      category list; anything else falls back to category selection. */
  function Render(a: App): (v: View)
    ensures v.PlayerView? <==> a.screen == Player && a.config.Some?
    ensures v.SuggestionView? <==> a.screen == SuggestionSelection && |a.categories| > 0
    ensures v.PlayerView? ==> v.config == a.config.value
    ensures v.SuggestionView? ==> v.categoryIds == a.categories
  {
    if a.screen == Player && a.config.Some? then PlayerView(a.config.value)
    else if a.screen == SuggestionSelection && |a.categories| > 0 then SuggestionView(a.categories)
    else CategoryView
  }

  /** The state after a series of events from the initial state. */
  function Run(a: App, events: seq<Event>): App
    decreases |events|
  {
    if |events| == 0 then a else Run(Step(a, events[0]), events[1..])
  }

  /** Going back from the player keeps the session it was started with, and shows the
      suggestion screen exactly when categories had been chosen. */
  lemma BackKeepsSession(a: App, config: SessionConfig)
    ensures Render(Step(Step(a, StartSession(config)), BackToSuggestions)).SuggestionView?
            <==> |a.categories| > 0
    ensures Step(Step(a, StartSession(config)), BackToSuggestions).config == Some(config)
  {
  }

  /** Every run from the initial state that shows the player shows the session most
      recently started, and the session is cleared only by ending it. */
  lemma {:induction false} PlayerShowsLastSession(a: App, events: seq<Event>, config: SessionConfig)
    requires a.config == Some(config)
    requires forall k :: 0 <= k < |events| ==> !events[k].EndSession? && !events[k].StartSession?
    ensures Run(a, events).config == Some(config)
    ensures Render(Run(a, events)).PlayerView? ==> Render(Run(a, events)).config == config
    decreases |events|
  {
    if |events| > 0 {
      PlayerShowsLastSession(Step(a, events[0]), events[1..], config);
    }
  }

  /** Category selection is reachable from every screen by a single event. */
  lemma EndAlwaysReturnsHome(a: App)
    ensures Render(Step(a, EndSession)) == CategoryView
    ensures Render(Step(a, BackToCategories)) == CategoryView
  {
  }

  datatype Gate = Loading | AuthView | MainView

  /** `AppContent`: a spinner while authentication is checked, the sign-in screen for a
      visitor who has not skipped it, otherwise the application. */
  function AuthGate(isLoading: bool, isAuthenticated: bool, skippedAuth: bool): (g: Gate)
    ensures g == Loading <==> isLoading
    ensures g == AuthView <==> !isLoading && !isAuthenticated && !skippedAuth
    ensures g == MainView <==> !isLoading && (isAuthenticated || skippedAuth)
  {
    if isLoading then Loading
    else if !isAuthenticated && !skippedAuth then AuthView
    else MainView
  }
}
