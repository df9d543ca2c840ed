/**
 * What the profile picker and the profile manager share: a list of profiles,
 * an edit-mode flag, and the add/edit modal (whether it is shown, the draft
 * picture and name, and what saving will overwrite). `T` is a list position
 * on the picker and the pressed profile on the manager; `None` there means
 * "add a new profile".
 */
module ProfileListScreen {
  import opened Text
  import opened Profiles
  import opened Storage

  /** The alert shown when the typed name trims to the empty string. */
  const EmptyNameAlert: string := "Please enter a name for the profile."

  datatype Editor<T> = Editor(visible: bool, image: Option<string>, name: string, target: Option<T>)

  /** The result of a save or delete: the screen's new state, the store after
      the write, and the alert shown, if any. */
  datatype Step<S> = Step(screen: S, store: Store, alert: Option<string>)

  /** What pressing a profile tile does: in edit mode it opens the editor on
      the same screen, otherwise it navigates to the home tabs with the
      profile's name. */
  datatype Press<S> = Stay(screen: S) | NavigateHome(selectedProfileName: string)

  /** The editor as `resetModal` leaves it, which is also its initial state:
      hidden, no image, empty name, nothing selected for editing. */
  predicate IsClosed<T>(e: Editor<T>) {
    !e.visible && e.image == None && e.name == "" && e.target == None
  }

  function Closed<T>(): (e: Editor<T>)
    ensures IsClosed(e)
  {
    Editor(false, None, "", None)
  }

  /** `newProfileName.trim()` is truthy. */
  predicate Accepts(name: string) {
    Trim(name) != ""
  }

  /** A name is accepted exactly when it has a character other than
      whitespace. */
  lemma AcceptsIffNotBlank(name: string)
    ensures Accepts(name) <==> !IsBlank(name)
  {
  }

  /** The profile a save writes: the name as typed (not trimmed) and the
      draft image. */
  function Drafted<T>(e: Editor<T>): Profile {
    Profile(e.name, e.image)
  }

  /** `handleProfilePress` in edit mode: the editor opens with the pressed
      profile's name and image, set to overwrite `target`. */
  function OpenFor<T>(target: T, p: Profile): (e: Editor<T>)
    ensures e.visible && e.target == Some(target)
    ensures Drafted(e) == p
  {
    Editor(true, p.image, p.name, Some(target))
  }

  /** `pickImage`: a chosen URI becomes the draft image and opens the editor;
      a cancelled pick (`None`) changes nothing. The typed name and the edit
      target are kept. */
  function PickImage<T>(e: Editor<T>, picked: Option<string>): (r: Editor<T>)
    ensures picked.None? ==> r == e
    ensures picked.Some? ==> r.visible && r.image == picked
    ensures r.name == e.name && r.target == e.target
  {
    if picked.Some? then e.(visible := true, image := picked) else e
  }

  /** `changeImage`: as `PickImage`, but the editor's visibility is left as
      it is. */
  function ChangeImage<T>(e: Editor<T>, picked: Option<string>): (r: Editor<T>)
    ensures picked.None? ==> r == e
    ensures picked.Some? ==> r.image == picked
    ensures r.visible == e.visible && r.name == e.name && r.target == e.target
  {
    if picked.Some? then e.(image := picked) else e
  }

  datatype ListScreen<T> = ListScreen(profiles: seq<Profile>, editMode: bool, editor: Editor<T>)

  /** The state on mount, before the stored profiles are loaded. */
  function Initial<T>(): (s: ListScreen<T>)
    ensures s.profiles == [] && !s.editMode && IsClosed(s.editor)
  {
    ListScreen([], false, Closed())
  }

  /** The screen shows what the store holds, up to the `|| null` of images. */
  predicate Persisted<T>(s: ListScreen<T>, store: Store) {
    Load(store) == Some(NormalizeImages(s.profiles))
  }

  /** `loadProfiles`: the stored list replaces the shown one; when either key
      is missing or unreadable the shown list is kept. Nothing else changes. */
  function LoadProfiles<T>(s: ListScreen<T>, store: Store): (r: ListScreen<T>)
    ensures Load(store).None? ==> r == s
    ensures Load(store).Some? ==> r.profiles == Load(store).value
    ensures r.editMode == s.editMode && r.editor == s.editor
  {
    match Load(store)
    case None => s
    case Some(ps) => s.(profiles := ps)
  }

  /** `resetModal` (also the modal's Cancel and back actions): the editor is
      closed and the list and edit mode are kept. */
  function ResetModal<T>(s: ListScreen<T>): (r: ListScreen<T>)
    ensures IsClosed(r.editor)
    ensures r.profiles == s.profiles && r.editMode == s.editMode
  {
    s.(editor := Closed())
  }
}
