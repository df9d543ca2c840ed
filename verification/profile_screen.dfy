/**
 * The profile picker ("Who's Watching?"): a list of profiles edited by
 * position. The editor's target is the index of the profile being edited.
 */
module ProfileScreen {
  import opened Text
  import opened Profiles
  import opened Lists
  import opened Storage
  import opened ProfileListScreen

  type Screen = ListScreen<int>

  /** `addOrEditProfile`. A blank name is refused with an alert and nothing
      changes, the editor included. Otherwise, with no edit index the drafted
      profile is appended; with an edit index only that position is
      overwritten. The new list is saved and the editor is reset. */
  function AddOrEditProfile(s: Screen, store: Store): (r: Step<Screen>)
    ensures IsBlank(s.editor.name) ==> r == Step(s, store, Some(EmptyNameAlert))
    ensures !IsBlank(s.editor.name) ==>
              && r.alert == None
              && r.screen.editMode == s.editMode
              && IsClosed(r.screen.editor)
              && r.store == Save(store, r.screen.profiles)
    ensures !IsBlank(s.editor.name) && s.editor.target.None? ==>
              && |r.screen.profiles| == |s.profiles| + 1
              && r.screen.profiles[..|s.profiles|] == s.profiles
              && r.screen.profiles[|s.profiles|] == Profile(s.editor.name, s.editor.image)
    ensures !IsBlank(s.editor.name) && s.editor.target.Some? ==>
              && |r.screen.profiles| == |s.profiles|
              && forall k :: 0 <= k < |s.profiles| ==>
                   r.screen.profiles[k] ==
                     (if k == s.editor.target.value then Profile(s.editor.name, s.editor.image) else s.profiles[k])
  {
    if Accepts(s.editor.name) then
      var updated :=
        match s.editor.target
        case None => s.profiles + [Drafted(s.editor)]
        case Some(i) => ReplaceAt(s.profiles, i, Drafted(s.editor));
      Step(ListScreen(updated, s.editMode, Closed()), Save(store, updated), None)
    else
      Step(s, store, Some(EmptyNameAlert))
  }

  /** `deleteProfile(index)`: the profile at `index` is dropped, the others
      keep their order, and the result is saved. An index outside the list
      drops nothing (the list is still saved). The editor is untouched. */
  function DeleteProfile(s: Screen, store: Store, index: int): (r: Step<Screen>)
    ensures 0 <= index < |s.profiles| ==>
              && |r.screen.profiles| == |s.profiles| - 1
              && r.screen.profiles == s.profiles[..index] + s.profiles[index + 1..]
    ensures !(0 <= index < |s.profiles|) ==> r.screen.profiles == s.profiles
    ensures r.screen.editMode == s.editMode && r.screen.editor == s.editor
    ensures r.store == Save(store, r.screen.profiles) && r.alert == None
  {
    var updated := RemoveAt(s.profiles, index);
    Step(s.(profiles := updated), Save(store, updated), None)
  }

  /** `handleProfilePress` on the tile at position `i`. The source looks the
      pressed profile up with `indexOf`, which finds position `i` because
      every entry of the list is a distinct object. */
  function PressProfile(s: Screen, i: int): (r: Press<Screen>)
    requires 0 <= i < |s.profiles|
    ensures s.editMode ==> r.Stay? && r.screen.profiles == s.profiles && r.screen.editMode
    ensures s.editMode ==> r.screen.editor.visible && r.screen.editor.target == Some(i)
    ensures s.editMode ==> Drafted(r.screen.editor) == s.profiles[i]
    ensures !s.editMode ==> r == NavigateHome(s.profiles[i].name)
  {
    if s.editMode then Stay(s.(editor := OpenFor(i, s.profiles[i])))
    else NavigateHome(s.profiles[i].name)
  }

  /** Every save or delete leaves the store holding the list the screen
      shows. */
  lemma ChangesArePersisted(s: Screen, store: Store, index: int)
    ensures Persisted(AddOrEditProfile(s, store).screen, AddOrEditProfile(s, store).store)
            || AddOrEditProfile(s, store).alert.Some?
    ensures Persisted(DeleteProfile(s, store, index).screen, DeleteProfile(s, store, index).store)
  {
    LoadAfterSave(store, AddOrEditProfile(s, store).screen.profiles);
    LoadAfterSave(store, DeleteProfile(s, store, index).screen.profiles);
  }

  /** Opening a profile for editing and saving without touching the draft
      leaves the list exactly as it was. */
  lemma SaveUnchangedEditKeepsList(s: Screen, store: Store, i: int)
    requires 0 <= i < |s.profiles| && s.editMode
    ensures AddOrEditProfile(PressProfile(s, i).screen, store).screen.profiles == s.profiles
  {
    var editing := PressProfile(s, i).screen;
    if Accepts(s.profiles[i].name) {
      var r := AddOrEditProfile(editing, store).screen.profiles;
      assert r == s.profiles[i := s.profiles[i]];
    }
  }

  /** An image picked for a new profile is the image the new profile gets. */
  lemma PickedImageIsAdded(s: Screen, store: Store, uri: string)
    requires s.editor.target.None? && !IsBlank(s.editor.name)
    ensures var r := AddOrEditProfile(s.(editor := PickImage(s.editor, Some(uri))), store);
            r.screen.profiles == s.profiles + [Profile(s.editor.name, Some(uri))]
  {
  }
}
