/**
 * The "My Netflix" tab: it reloads the stored profiles, shows the first one
 * as the current profile, opens a settings sheet and signs the user out.
 */
module MyNetflixScreen {
  import opened Profiles
  import opened Storage

  /** The profile shown until a non-empty list has been loaded. */
  const DefaultProfile: Profile := Profile("User", None)

  /** The keys sign-out removes from the store. */
  const LogoutKeys: set<string> :=
    {"userName", "userEmail", "userPassword", "userid", "profiles", "selectedProfile"}

  datatype Screen = Screen(settingsVisible: bool, profiles: seq<Profile>, selected: Profile)

  /** The state on mount: settings hidden, no profiles, the default profile. */
  function Initial(): (s: Screen)
    ensures !s.settingsVisible && s.profiles == []
    ensures s.selected.name == "User" && s.selected.image == None
  {
    Screen(false, [], DefaultProfile)
  }

  /** `loadProfiles`: a readable store replaces the list, and a non-empty
      list makes its first profile the selected one. A missing key, or an
      empty names array, keeps the selection. */
  function LoadProfiles(s: Screen, store: Store): (r: Screen)
    ensures Load(store).None? ==> r == s
    ensures Load(store).Some? ==> r.profiles == Load(store).value
    ensures Readable(store) ==> |r.profiles| == |store[NamesKey].names|
    ensures Load(store).Some? && Load(store).value != [] ==> r.selected == Load(store).value[0]
    ensures Load(store).None? || Load(store).value == [] ==> r.selected == s.selected
    ensures r.settingsVisible == s.settingsVisible
  {
    match Load(store)
    case None => s
    case Some(ps) =>
      if |ps| > 0 then s.(profiles := ps, selected := ps[0]) else s.(profiles := ps)
  }

  /** `handleLogout`'s store update: exactly the six user keys go, whatever
      else the store holds stays. */
  function Logout(store: Store): (r: Store)
    ensures r.Keys == store.Keys - LogoutKeys
    ensures forall key :: key in r ==> r[key] == store[key]
  {
    store - LogoutKeys
  }

  /** The profile keys are not among the ones sign-out removes, so the stored
      profiles load the same before and after signing out. */
  lemma ProfilesSurviveLogout(store: Store)
    ensures NamesKey !in LogoutKeys && ImagesKey !in LogoutKeys
    ensures Load(Logout(store)) == Load(store)
  {
    assert NamesKey !in LogoutKeys by {
      assert |NamesKey| == 14;
    }
    assert ImagesKey !in LogoutKeys by {
      assert |ImagesKey| == 15;
    }
    LoadReadsOnlyProfileKeys(Logout(store), store);
  }

  /** `toggleSettingsModal`. */
  function ToggleSettings(s: Screen): (r: Screen)
    ensures r.settingsVisible == !s.settingsVisible
    ensures r.profiles == s.profiles && r.selected == s.selected
  {
    s.(settingsVisible := !s.settingsVisible)
  }

  /** Toggling the settings sheet twice restores the screen. */
  lemma ToggleTwiceRestores(s: Screen)
    ensures ToggleSettings(ToggleSettings(s)) == s
  {
  }

  /** After a non-empty list has been saved, loading selects its first
      profile, with the image normalised by `|| null`. */
  lemma LoadSelectsFirstSaved(s: Screen, store: Store, ps: seq<Profile>)
    requires ps != []
    ensures LoadProfiles(s, Save(store, ps)).selected == Profile(ps[0].name, OrNull(ps[0].image))
  {
    LoadAfterSave(store, ps);
  }
}
