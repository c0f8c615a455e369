// The top-level navigation of `AppContent` in src/App.tsx: which screen shows
// (landing, onboarding, profile creation or the tabbed main app) and which tab
// is active. The mount effect reads the auth token through its cache; the
// onboarding completion reads `userId` from storage and, when there is one,
// asks `/auth/me`, whose answer arrives in a separate step. The install
// prompt set-up the mount effect also runs is module Pwa.

module AppFlow {
  import opened Js
  import BrowserStorage
  import ApiClient

  datatype AppState = Landing | Onboarding | ProfileCreation | Main

  datatype Tab = Pool | Leaderboard | Inbox | Profile

  /** What renders: the loading splash, one of the three full-page steps, or the screen of one tab. */
  datatype Screen = Splash | LandingPage | OnboardingPage | ProfileCreationPage | TabScreen(tab: Tab)

  const UserIdKey := "userId"

  /** The `/auth/me` answer as the completion handler reads it: `response.success` and `response.user?.musical_genre`. */
  datatype MeReply = MeReply(success: JsValue, musicalGenre: JsValue)

  /** Where an answered (`Some`) or failed (`None`) `/auth/me` request leads. */
  function AfterMe(reply: Option<MeReply>): (s: AppState)
    ensures s == Main <==> reply.Some? && Truthy(reply.value.success) && Truthy(reply.value.musicalGenre)
    ensures s != Main ==> s == ProfileCreation
  {
    if reply.Some? && Truthy(reply.value.success) && Truthy(reply.value.musicalGenre) then Main
    else ProfileCreation
  }

  class App {
    var state: AppState
    var tab: Tab
    var loading: bool
    /** The auth token cache of src/utils/api.ts, over the page's `localStorage`. */
    const tokens: BrowserStorage.CachedValue

    constructor(tokens: BrowserStorage.CachedValue)
      requires tokens.key == ApiClient.AuthTokenKey
      ensures state == Landing && tab == Pool && loading && this.tokens == tokens
      ensures Shown() == Splash
    {
      state := Landing;
      tab := Pool;
      loading := true;
      this.tokens := tokens;
    }

    /** Exactly one screen renders, and in the main app it is the active tab's. */
    function Shown(): (s: Screen)
      reads this
      ensures loading <==> s == Splash
      ensures s.TabScreen? <==> !loading && state == Main
      ensures s.TabScreen? ==> s.tab == tab
    {
      if loading then Splash
      else match state
        case Landing => LandingPage
        case Onboarding => OnboardingPage
        case ProfileCreation => ProfileCreationPage
        case Main => TabScreen(tab)
    }

    /** The mount effect: a stored auth token skips straight to the main app. */
    method Mount()
      requires loading && state == Landing && tokens.key == ApiClient.AuthTokenKey
      modifies this, tokens
      ensures state == (if TruthyText(old(tokens.Current())) then Main else Landing)
      ensures !loading && tab == old(tab)
      ensures tokens.store.items == old(tokens.store.items)
    {
      var token := ApiClient.GetAuthToken(tokens);
      if TruthyText(token) {
        state := Main;
      }
      loading := false;
    }

    /** The landing page's get-started button. */
    method GetStarted()
      requires !loading && state == Landing
      modifies this
      ensures state == Onboarding && tab == old(tab) && !loading
    {
      state := Onboarding;
    }

    /** The onboarding screen's back button. */
    method OnboardingBack()
      requires !loading && state == Onboarding
      modifies this
      ensures state == Landing && tab == old(tab) && !loading
    {
      state := Landing;
    }

    /**
     * The onboarding screen's completion: without a stored user id the profile
     * creation step follows at once; with one, `/auth/me` is asked and the
     * state waits for `MeAnswered`.
     */
    method OnboardingComplete() returns (asked: bool)
      requires !loading && state == Onboarding
      modifies this
      ensures asked <==> TruthyText(tokens.store.GetItem(UserIdKey))
      ensures state == (if asked then Onboarding else ProfileCreation)
      ensures tab == old(tab) && !loading
    {
      var userId := tokens.store.GetItem(UserIdKey);
      if TruthyText(userId) {
        return true;
      }
      state := ProfileCreation;
      asked := false;
    }

    /** The `/auth/me` request started by `OnboardingComplete` settles. */
    method MeAnswered(reply: Option<MeReply>)
      modifies this
      ensures state == AfterMe(reply) && tab == old(tab) && loading == old(loading)
    {
      state := AfterMe(reply);
    }

    /** The profile creation screen's completion. */
    method ProfileCreated()
      requires !loading && state == ProfileCreation
      modifies this
      ensures state == Main && tab == old(tab) && !loading
    {
      state := Main;
    }

    /** The tab bar: the chosen tab's screen is the one that renders. */
    method SelectTab(t: Tab)
      requires !loading && state == Main
      modifies this
      ensures tab == t && state == Main && !loading
      ensures Shown() == TabScreen(t)
    {
      tab := t;
    }
  }
}
