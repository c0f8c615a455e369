// The profile tab of src/components/ProfileScreen.tsx: the profile shown
// (the built-in one until `/auth/me` answers), the sub-screen on top of it,
// and logout. The load is split at its `await`: the answer is a parameter.
// The confirmation dialog is a parameter too; the reload after logout is
// not part of this model.

module ProfileView {
  import opened Js
  import BrowserStorage
  import ApiClient
  import MockAuth

  datatype SubScreen = MainScreen | Edit | Invite | Settings | Privacy

  datatype Stats = Stats(rank: JsValue, rightSwipes: JsValue, category: JsValue)

  /** The songs shown: the built-in six, or what the server sent. */
  datatype Songs = DefaultSongs | Given(songs: JsValue)

  datatype Profile = Profile(name: JsValue, photo: JsValue, stats: Stats, songs: Songs)

  const DefaultPhoto := "https://images.unsplash.com/photo-1655977237812-ee6beb137203?w=400"

  /** `myProfile`, shown before and instead of a loaded one. */
  const MyProfile := Profile(Text("You"), Text(DefaultPhoto), Stats(Num(12), Num(156), Text("Indie")), DefaultSongs)

  /** `response.user` of `/auth/me`: its name, photo, `stats` (None when nullish) and songs. */
  datatype MeUser = MeUser(name: JsValue, photo: JsValue, stats: Option<Stats>, songs: JsValue)

  /** `stats?.rank`, `stats?.rightSwipes` and `stats?.category`: all undefined when there are no stats. */
  function StatsOf(stats: Option<Stats>): (s: Stats)
    ensures stats.None? ==> s == Stats(Undefined, Undefined, Undefined)
    ensures stats.Some? ==> s == stats.value
  {
    if stats.Some? then stats.value else Stats(Undefined, Undefined, Undefined)
  }

  /** The profile built from a user: each missing or falsy field falls back. */
  function FromUser(u: MeUser): (p: Profile)
    ensures Truthy(p.name) && Truthy(p.photo) && Truthy(p.stats.category)
    ensures Truthy(u.name) ==> p.name == u.name
    ensures !Truthy(u.name) ==> p.name == Text("You")
    ensures Truthy(u.photo) ==> p.photo == u.photo
    ensures !Truthy(u.photo) ==> p.photo == MyProfile.photo
    ensures u.stats.None? ==> p.stats == Stats(Num(0), Num(0), Text("Indie"))
    ensures u.stats.Some? ==>
      && p.stats.rank == (if Truthy(u.stats.value.rank) then u.stats.value.rank else Num(0))
      && p.stats.rightSwipes == (if Truthy(u.stats.value.rightSwipes) then u.stats.value.rightSwipes else Num(0))
      && p.stats.category == (if Truthy(u.stats.value.category) then u.stats.value.category else Text("Indie"))
    ensures p.songs == (if Truthy(u.songs) then Given(u.songs) else DefaultSongs)
  {
    var stats := StatsOf(u.stats);
    Profile(Or(u.name, Text("You")), Or(u.photo, MyProfile.photo),
            Stats(Or(stats.rank, Num(0)), Or(stats.rightSwipes, Num(0)), Or(stats.category, Text("Indie"))),
            if Truthy(u.songs) then Given(u.songs) else DefaultSongs)
  }

  /** A user whose fields are all filled in is shown as sent. */
  lemma FullUserShownAsSent(name: JsValue, photo: JsValue, stats: Stats, songs: JsValue)
    requires Truthy(name) && Truthy(photo) && Truthy(songs)
    requires Truthy(stats.rank) && Truthy(stats.rightSwipes) && Truthy(stats.category)
    ensures FromUser(MeUser(name, photo, Some(stats), songs)) == Profile(name, photo, stats, Given(songs))
  {
  }

  /** An empty user is shown with the fallbacks, which keep the default name and photo but zero the counts. */
  lemma EmptyUserFallbacks()
    ensures var p := FromUser(MeUser(Undefined, Undefined, None, Undefined));
      p.name == MyProfile.name && p.photo == MyProfile.photo && p.songs == MyProfile.songs
      && p.stats == Stats(Num(0), Num(0), Text("Indie")) && p.stats != MyProfile.stats
  {
  }

  /** How `/auth/me` ended: thrown (None), answered without a user, or answered with one. */
  datatype MeOutcome = Threw | NoUser | WithUser(user: MeUser)

  class ProfileScreen {
    var profile: Profile
    var loading: bool
    var active: SubScreen

    constructor()
      ensures profile == MyProfile && loading && active == MainScreen
    {
      profile := MyProfile;
      loading := true;
      active := MainScreen;
    }

    /** The rest of `loadProfile`: only an answer with a user replaces the profile. */
    method FinishLoad(outcome: MeOutcome)
      modifies this
      ensures profile == (if outcome.WithUser? then FromUser(outcome.user) else old(profile))
      ensures !loading && active == old(active)
    {
      if outcome.WithUser? {
        profile := FromUser(outcome.user);
      }
      loading := false;
    }

    /** A button of the main screen opens a sub-screen. */
    method Open(screen: SubScreen)
      requires active == MainScreen && !loading
      modifies this
      ensures active == screen && profile == old(profile) && loading == old(loading)
    {
      active := screen;
    }

    /** The back button of any sub-screen. */
    method Back()
      requires active != MainScreen
      modifies this
      ensures active == MainScreen && profile == old(profile) && loading == old(loading)
    {
      active := MainScreen;
    }

    /** `handleLogout`: after confirmation the auth token and the current user id are forgotten, in memory and in storage. */
    method Logout(confirmed: bool, tokens: BrowserStorage.CachedValue, users: BrowserStorage.CachedValue)
      requires tokens.key == ApiClient.AuthTokenKey && users.key == MockAuth.CurrentUserKey
      requires tokens.store == users.store
      modifies tokens, users, tokens.store
      ensures !confirmed ==>
        && tokens.memory == old(tokens.memory) && users.memory == old(users.memory)
        && tokens.store.items == old(tokens.store.items)
      ensures confirmed ==>
        && tokens.memory == None && users.memory == None
        && tokens.store.items == old(tokens.store.items) - {ApiClient.AuthTokenKey, MockAuth.CurrentUserKey}
        && tokens.Current() == None && users.Current() == None
    {
      if confirmed {
        ApiClient.ClearAuthToken(tokens);
        MockAuth.ClearCurrentUserId(users);
      }
    }
  }
}
