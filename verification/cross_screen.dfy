/**
 * The three profile screens share one stored list through the same two
 * keys: what one screen saves is what the others load.
 */
module CrossScreen {
  import opened Text
  import opened Profiles
  import opened Storage
  import Shared = ProfileListScreen
  import Picker = ProfileScreen
  import Manager = ManageProfileScreen
  import Home = MyNetflixScreen

  /** A saved list loads identically on every screen, whichever screen saved
      it, up to the `|| null` of images. */
  lemma SavedListLoadsAlike(store: Store, ps: seq<Profile>,
                            a: Picker.Screen, b: Manager.Screen, c: Home.Screen)
    ensures Shared.LoadProfiles(a, Save(store, ps)).profiles == NormalizeImages(ps)
    ensures Shared.LoadProfiles(b, Save(store, ps)).profiles == NormalizeImages(ps)
    ensures Home.LoadProfiles(c, Save(store, ps)).profiles == NormalizeImages(ps)
  {
    LoadAfterSave(store, ps);
  }

  /** After the manager deletes a profile, the picker reloads a list in which
      no profile carries that name any more. */
  lemma ManagerDeleteSeenByPicker(b: Manager.Screen, store: Store, target: Profile, a: Picker.Screen)
    ensures var after := Manager.DeleteProfile(b, store, target);
            var shown := Shared.LoadProfiles(a, after.store).profiles;
            |shown| == |after.screen.profiles| &&
            forall k :: 0 <= k < |shown| ==> shown[k].name != target.name
  {
    var after := Manager.DeleteProfile(b, store, target);
    LoadAfterSave(store, after.screen.profiles);
  }

  /** After the picker adds or edits a profile, the home tab reloads the
      picker's list and selects its first profile. */
  lemma PickerSaveSeenByHome(a: Picker.Screen, store: Store, c: Home.Screen)
    requires !IsBlank(a.editor.name)
    ensures var after := Picker.AddOrEditProfile(a, store);
            var home := Home.LoadProfiles(c, after.store);
            home.profiles == NormalizeImages(after.screen.profiles) &&
            (after.screen.profiles != [] ==> home.selected == home.profiles[0])
  {
    var after := Picker.AddOrEditProfile(a, store);
    LoadAfterSave(store, after.screen.profiles);
  }

  /** Signing out on the home tab does not lose the profiles either profile
      screen loads. */
  lemma LogoutKeepsProfiles(store: Store, a: Picker.Screen, b: Manager.Screen)
    ensures Shared.LoadProfiles(a, Home.Logout(store)) == Shared.LoadProfiles(a, store)
    ensures Shared.LoadProfiles(b, Home.Logout(store)) == Shared.LoadProfiles(b, store)
  {
    Home.ProfilesSurviveLogout(store);
  }
}
