/**
 * The profile manager: the same stored list as the picker, but edited by
 * name. The editor's target is the pressed profile, and saving or deleting
 * affects every profile that carries its name.
 */
module ManageProfileScreen {
  import opened Text
  import opened Profiles
  import opened Storage
  import opened ProfileListScreen

  type Screen = ListScreen<Profile>

  /** `profiles.map(p => p.name === name ? replacement : p)`. */
  function ReplaceNamed(ps: seq<Profile>, name: string, replacement: Profile): (r: seq<Profile>)
    ensures |r| == |ps|
    ensures forall k :: 0 <= k < |ps| && ps[k].name == name ==> r[k] == replacement
    ensures forall k :: 0 <= k < |ps| && ps[k].name != name ==> r[k] == ps[k]
    decreases |ps|
  {
    if ps == [] then []
    else [if ps[0].name == name then replacement else ps[0]] + ReplaceNamed(ps[1..], name, replacement)
  }

  /** `profiles.filter(p => p.name !== name)`. */
  function RemoveNamed(ps: seq<Profile>, name: string): (r: seq<Profile>)
    ensures |r| <= |ps|
    ensures forall k :: 0 <= k < |r| ==> r[k].name != name && r[k] in ps
    decreases |ps|
  {
    if ps == [] then []
    else (if ps[0].name == name then [] else [ps[0]]) + RemoveNamed(ps[1..], name)
  }

  /** Removal works piecewise, so the kept profiles stay in their order. */
  lemma {:induction false} RemoveNamedDistributes(a: seq<Profile>, b: seq<Profile>, name: string)
    ensures RemoveNamed(a + b, name) == RemoveNamed(a, name) + RemoveNamed(b, name)
    decreases |a|
  {
    if a != [] {
      assert (a + b)[1..] == a[1..] + b;
      RemoveNamedDistributes(a[1..], b, name);
    } else {
      assert a + b == b;
    }
  }

  /** Removal drops every copy of a profile with the name and keeps every
      copy of every other profile. */
  lemma {:induction false} RemoveNamedCounts(ps: seq<Profile>, name: string)
    ensures forall p :: multiset(RemoveNamed(ps, name))[p] == if p.name == name then 0 else multiset(ps)[p]
    decreases |ps|
  {
    if ps != [] {
      RemoveNamedCounts(ps[1..], name);
      assert ps == [ps[0]] + ps[1..];
    }
  }

  /** The survivors of every prefix of the list come first in the result,
      so the kept profiles stay in their order. */
  lemma RemoveNamedKeepsOrder(ps: seq<Profile>, name: string, k: int)
    requires 0 <= k <= |ps|
    ensures RemoveNamed(ps[..k], name) <= RemoveNamed(ps, name)
  {
    assert ps == ps[..k] + ps[k..];
    RemoveNamedDistributes(ps[..k], ps[k..], name);
  }

  /** Every profile with a different name survives a removal. */
  lemma {:induction false} RemoveNamedKeepsOthers(ps: seq<Profile>, name: string, k: int)
    requires 0 <= k < |ps| && ps[k].name != name
    ensures ps[k] in RemoveNamed(ps, name)
    decreases |ps|
  {
    if k > 0 {
      RemoveNamedKeepsOthers(ps[1..], name, k - 1);
    }
  }

  /** Removing a name changes the list exactly when some profile has it. */
  lemma {:induction false} RemoveNamedUnchangedIff(ps: seq<Profile>, name: string)
    ensures RemoveNamed(ps, name) == ps <==> forall k :: 0 <= k < |ps| ==> ps[k].name != name
    decreases |ps|
  {
    if ps != [] {
      RemoveNamedUnchangedIff(ps[1..], name);
      if forall k :: 0 <= k < |ps| ==> ps[k].name != name {
        assert forall k :: 0 <= k < |ps[1..]| ==> ps[1..][k].name != name by {
          forall k | 0 <= k < |ps[1..]|
            ensures ps[1..][k].name != name
          {
            assert ps[1..][k] == ps[k + 1];
          }
        }
        assert ps == [ps[0]] + ps[1..];
      }
    }
  }

  /** Rewriting every profile called `name` to one called something else
      leaves no profile called `name`. */
  lemma ReplaceNamedRenames(ps: seq<Profile>, name: string, replacement: Profile)
    requires replacement.name != name
    ensures forall k :: 0 <= k < |ps| ==> ReplaceNamed(ps, name, replacement)[k].name != name
  {
  }

  /** Rewriting the profiles called `name` to a profile that keeps that name
      is a no-op exactly when every profile with that name already equals
      the replacement. */
  lemma ReplaceNamedUnchangedIff(ps: seq<Profile>, name: string, replacement: Profile)
    ensures ReplaceNamed(ps, name, replacement) == ps <==>
            forall k :: 0 <= k < |ps| && ps[k].name == name ==> ps[k] == replacement
  {
    var r := ReplaceNamed(ps, name, replacement);
    if forall k :: 0 <= k < |ps| && ps[k].name == name ==> ps[k] == replacement {
      assert forall k :: 0 <= k < |ps| ==> r[k] == ps[k];
    } else {
      var k :| 0 <= k < |ps| && ps[k].name == name && ps[k] != replacement;
      assert r[k] != ps[k];
    }
  }

  /** `addOrEditProfile`. A blank name is refused with an alert and nothing
      changes. Otherwise, with no profile selected the drafted profile is
      appended; with one selected, every profile sharing its name is
      rewritten to the draft and all others stay where they are. The list is
      saved and the editor is reset. */
  function AddOrEditProfile(s: Screen, store: Store): (r: Step<Screen>)
    ensures IsBlank(s.editor.name) ==> r == Step(s, store, Some(EmptyNameAlert))
    ensures !IsBlank(s.editor.name) ==>
              && r.alert == None
              && r.screen.editMode == s.editMode
              && IsClosed(r.screen.editor)
              && r.store == Save(store, r.screen.profiles)
    ensures !IsBlank(s.editor.name) && s.editor.target.None? ==>
              && |r.screen.profiles| == |s.profiles| + 1
              && r.screen.profiles[..|s.profiles|] == s.profiles
              && r.screen.profiles[|s.profiles|] == Profile(s.editor.name, s.editor.image)
    ensures !IsBlank(s.editor.name) && s.editor.target.Some? ==>
              && |r.screen.profiles| == |s.profiles|
              && forall k :: 0 <= k < |s.profiles| ==>
                   r.screen.profiles[k] ==
                     (if s.profiles[k].name == s.editor.target.value.name
                      then Profile(s.editor.name, s.editor.image)
                      else s.profiles[k])
  {
    if Accepts(s.editor.name) then
      var updated :=
        match s.editor.target
        case None => s.profiles + [Drafted(s.editor)]
        case Some(selected) => ReplaceNamed(s.profiles, selected.name, Drafted(s.editor));
      Step(ListScreen(updated, s.editMode, Closed()), Save(store, updated), None)
    else
      Step(s, store, Some(EmptyNameAlert))
  }

  /** `deleteProfile(target)`: every profile named like `target` goes, every
      other one stays with all its copies and in its order, and the result
      is saved. */
  function DeleteProfile(s: Screen, store: Store, target: Profile): (r: Step<Screen>)
    ensures forall k :: 0 <= k < |r.screen.profiles| ==> r.screen.profiles[k].name != target.name
    ensures forall k :: 0 <= k < |s.profiles| && s.profiles[k].name != target.name ==>
              s.profiles[k] in r.screen.profiles
    ensures forall p :: multiset(r.screen.profiles)[p] ==
              if p.name == target.name then 0 else multiset(s.profiles)[p]
    ensures forall k :: 0 <= k <= |s.profiles| ==>
              RemoveNamed(s.profiles[..k], target.name) <= r.screen.profiles
    ensures r.screen.profiles == s.profiles <==> forall k :: 0 <= k < |s.profiles| ==> s.profiles[k].name != target.name
    ensures r.screen.editMode == s.editMode && r.screen.editor == s.editor
    ensures r.store == Save(store, r.screen.profiles) && r.alert == None
  {
    var updated := RemoveNamed(s.profiles, target.name);
    forall k | 0 <= k < |s.profiles| && s.profiles[k].name != target.name
      ensures s.profiles[k] in updated
    {
      RemoveNamedKeepsOthers(s.profiles, target.name, k);
    }
    forall k | 0 <= k <= |s.profiles|
      ensures RemoveNamed(s.profiles[..k], target.name) <= updated
    {
      RemoveNamedKeepsOrder(s.profiles, target.name, k);
    }
    RemoveNamedUnchangedIff(s.profiles, target.name);
    RemoveNamedCounts(s.profiles, target.name);
    Step(s.(profiles := updated), Save(store, updated), None)
  }

  /** `handleProfilePress` on the tile at position `i`: in edit mode the
      pressed profile becomes the selection and pre-fills the editor. */
  function PressProfile(s: Screen, i: int): (r: Press<Screen>)
    requires 0 <= i < |s.profiles|
    ensures s.editMode ==> r.Stay? && r.screen.profiles == s.profiles && r.screen.editMode
    ensures s.editMode ==> r.screen.editor.visible && r.screen.editor.target == Some(s.profiles[i])
    ensures s.editMode ==> Drafted(r.screen.editor) == s.profiles[i]
    ensures !s.editMode ==> r == NavigateHome(s.profiles[i].name)
  {
    if s.editMode then Stay(s.(editor := OpenFor(s.profiles[i], s.profiles[i])))
    else NavigateHome(s.profiles[i].name)
  }

  /** Every save or delete leaves the store holding the list the screen
      shows. */
  lemma ChangesArePersisted(s: Screen, store: Store, target: Profile)
    ensures Persisted(AddOrEditProfile(s, store).screen, AddOrEditProfile(s, store).store)
            || AddOrEditProfile(s, store).alert.Some?
    ensures Persisted(DeleteProfile(s, store, target).screen, DeleteProfile(s, store, target).store)
  {
    LoadAfterSave(store, AddOrEditProfile(s, store).screen.profiles);
    LoadAfterSave(store, DeleteProfile(s, store, target).screen.profiles);
  }

  /** Selecting a profile and saving without touching the draft leaves the
      list as it was exactly when no other profile shares its name with a
      different picture: otherwise those namesakes are overwritten too. */
  lemma SaveUnchangedEditIff(s: Screen, store: Store, i: int)
    requires 0 <= i < |s.profiles| && s.editMode
    requires !IsBlank(s.profiles[i].name)
    ensures AddOrEditProfile(PressProfile(s, i).screen, store).screen.profiles == s.profiles <==>
            forall k :: 0 <= k < |s.profiles| && s.profiles[k].name == s.profiles[i].name ==> s.profiles[k] == s.profiles[i]
  {
    ReplaceNamedUnchangedIff(s.profiles, s.profiles[i].name, s.profiles[i]);
  }
}
