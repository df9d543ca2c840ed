# Profile collection of a streaming-catalogue mobile client

This project is a Dafny model of the one piece of the app that holds real
logic: the list of viewer profiles (`{name, image}` records) and the small
append-only downloads list.

Three screens work on the same profile list:

- the profile picker ("Who's Watching?", `ProfileScreen`) edits it by position;
- the profile manager (`ManageProfileScreen`) edits and deletes it by name;
- the "My Netflix" tab (`MyNetflixScreen`) reloads it, shows the first profile
  as the current one, and signs the user out.

All three persist the list the same way. It is split into two parallel JSON
arrays stored under `profiles_names` and `profiles_images`. On load the arrays
are zipped back together with `images[k] || null`.

The model is functional. Every screen state is an immutable datatype, and
every handler is a pure function from (screen, store) to a new screen, a new
store and an optional alert. The device key-value store is a
`map<string, StoredValue>`, and JSON serialisation is the identity. Image URIs
are `Option<string>`, where `None` is `null`. An image is truthy when it is
present and not `""`.

Modules, one per source component plus three shared ones:

- `Text`: JavaScript `trim` over the ECMAScript whitespace and line-terminator
  code points. It is used for name validation.
- `Profiles`: the `Profile` record, `|| null` (`OrNull`) and its list-wide
  form `NormalizeImages`.
- `Lists`: the picker's index-addressed `map` and `filter`.
- `Storage`: `Save` and `Load` over the two keys, with the round-trip lemmas.
- `ProfileListScreen`: what both profile screens share. That is the list, the
  edit-mode flag, the add/edit modal, loading and `resetModal`. It is generic
  in what a save overwrites: a position on the picker, the pressed profile on
  the manager.
- `ProfileScreen`, `ManageProfileScreen`, `MyNetflixScreen`, `Downloads`: the
  four components.
- `CrossScreen`: lemmas relating what one screen saves to what another loads.

The save-then-load round trip is not lossless. Names come back exactly, but
an image that was `""` comes back as `null`. If the names array is longer than
the images array, the missing images read as `undefined` and also become
`null`. `Storage.LoadAfterSave` states the round trip exactly, and
`Storage.LoadAfterSaveExact` states when it is the identity.

On the manager, an edit rewrites every profile that shares the selected
profile's name. So "open and save unchanged" is a no-op only when all
namesakes are equal (`ManageProfileScreen.SaveUnchangedEditIff`).

Sign-out removes the keys `profiles` and `selectedProfile`. Nothing in the
modelled code writes to either key, and the stored profile keys survive
sign-out (`MyNetflixScreen.ProfilesSurviveLogout`).

## Model

| member | source | states |
|---|---|---|
| Text.TrimStart | src/Screens/ProfileScreen.js:87 | the result is a suffix of the input; everything dropped is whitespace; the result does not start with whitespace |
| Text.TrimEnd | src/Screens/ProfileScreen.js:87 | the result is a prefix of the input; everything dropped is whitespace; the result does not end with whitespace |
| Text.Trim | src/Screens/ProfileScreen.js:87 | `trim()` yields the empty (falsy) string exactly when the input is all whitespace; otherwise the result begins and ends with non-whitespace |
| ProfileListScreen.AcceptsIffNotBlank | src/Screens/ManageProfileScreen.js:81 | a typed name passes the `trim()` check exactly when it has a non-whitespace character |
| ProfileListScreen.OpenFor | src/Screens/ProfileScreen.js:119-122 | opening the editor on a profile shows it, sets the edit target, and pre-fills name and image so that the drafted profile equals the pressed one |
| ProfileListScreen.PickImage | src/Screens/ProfileScreen.js:80-83 | a chosen image becomes the draft image and opens the modal; a cancelled pick changes nothing; the typed name and edit target are kept |
| ProfileListScreen.ChangeImage | src/Screens/ProfileScreen.js:146-148 | a chosen image replaces the draft image without changing visibility, name or target; a cancelled pick changes nothing |
| Profiles.OrNull | src/Screens/ProfileScreen.js:51 | the falsy-to-null fallback of an image is non-null exactly when the image is truthy, and then it is that image |
| Profiles.NormalizeImages | src/Screens/ProfileScreen.js:49-52 | keeps length and names; every resulting image is the falsy-to-null fallback of the original, and none is `""` |
| Profiles.NormalizeImagesFixesNormalLists | src/Screens/ProfileScreen.js:49-52 | normalisation leaves a list unchanged exactly when no image in it is `""` |
| Profiles.NormalizeImagesIdempotent | src/Screens/ProfileScreen.js:49-52 | normalising twice is normalising once |
| Lists.ReplaceAt | src/Screens/ProfileScreen.js:90-94 | the index-matching `map` equals sequence update at `i` when `i` is in range, and is the identity otherwise |
| Lists.WithoutIndexFrom | src/Screens/ProfileScreen.js:111 | the index-based `filter` on a list starting at `offset` drops exactly the element at `i`, keeping the rest in order |
| Lists.RemoveAt | src/Screens/ProfileScreen.js:111 | `filter((_, i) => i !== index)` is `xs[..index] + xs[index+1..]` with length one less when in range, and the identity otherwise |
| Storage.Save | src/Screens/ProfileScreen.js:60-66 | writes a names array and an images array, one entry per profile, `names[k]`/`images[k]` being profile k's fields; every other key is untouched |
| Storage.ImageAt | src/Screens/ProfileScreen.js:51 | the loaded image for position `k` is non-null exactly when `k` is inside the array and that image is truthy |
| Storage.Load | src/Screens/ProfileScreen.js:43-53 | loads something exactly when both keys are readable; the list has one profile per stored name, profile k having name `names[k]` and image `images[k]` if truthy and null otherwise |
| Storage.LoadAfterSave | src/Screens/ProfileScreen.js:43-66 | loading what was saved returns the same names in order, with truthy images unchanged and falsy ones null |
| Storage.LoadAfterSaveExact | src/Screens/ProfileScreen.js:43-66 | the round trip is exact if and only if no image is `""` |
| Storage.LoadedListIsStable | src/Screens/ProfileScreen.js:43-66 | a loaded list survives any further save and load unchanged |
| Storage.LoadReadsOnlyProfileKeys | src/Screens/ProfileScreen.js:43-44 | two stores agreeing on the two profile keys load the same list |
| ProfileListScreen.Initial | src/Screens/ProfileScreen.js:17-22 | the picker (and likewise the manager) starts with no profiles, edit mode off and the editor closed |
| ProfileListScreen.LoadProfiles | src/Screens/ProfileScreen.js:41-58 | a readable store replaces the shown list; a missing key leaves the screen unchanged; edit mode and editor are untouched; the manager's loader at ManageProfileScreen.js lines 35-52 is the same code |
| ProfileScreen.AddOrEditProfile | src/Screens/ProfileScreen.js:86-108 | a blank name alerts and changes nothing (editor included); otherwise add mode appends exactly the drafted profile with its untrimmed name, and edit mode rewrites only position `editIndex`, keeping the length; the new list is saved and the editor reset |
| ProfileScreen.DeleteProfile | src/Screens/ProfileScreen.js:110-114 | removes exactly the profile at the index, keeping the others in order; an out-of-range index removes nothing; the result is saved |
| ProfileScreen.PressProfile | src/Screens/ProfileScreen.js:116-129 | in edit mode it opens the editor on position `i`, pre-filled with that profile; otherwise it navigates home with the profile's name |
| ProfileListScreen.ResetModal | src/Screens/ProfileScreen.js:131-136 | clears name, image and edit target (index or selected profile) and hides the modal, keeping the list |
| ProfileScreen.ChangesArePersisted | src/Screens/ProfileScreen.js:86-114 | after any accepted save and after any delete, the store loads the list the screen shows, up to image normalisation |
| ProfileScreen.SaveUnchangedEditKeepsList | src/Screens/ProfileScreen.js:88-95 | opening any profile for edit and saving the untouched draft leaves the list unchanged (a blank stored name is refused, which also keeps it) |
| ProfileScreen.PickedImageIsAdded | src/Screens/ProfileScreen.js:97-102 | a picked image followed by an add appends a profile with that image |
| ManageProfileScreen.ReplaceNamed | src/Screens/ManageProfileScreen.js:83-87 | keeps the length; every profile with the selected name becomes the replacement, and every other profile stays in place |
| ManageProfileScreen.RemoveNamed | src/Screens/ManageProfileScreen.js:99 | no survivor has the removed name, and every survivor comes from the input |
| ManageProfileScreen.RemoveNamedDistributes | src/Screens/ManageProfileScreen.js:99 | removal of a concatenation is the concatenation of removals, so kept profiles keep their order |
| ManageProfileScreen.RemoveNamedKeepsOthers | src/Screens/ManageProfileScreen.js:99 | every profile with a different name survives |
| ManageProfileScreen.RemoveNamedCounts | src/Screens/ManageProfileScreen.js:99 | every copy of a profile with the removed name goes, and every copy of every other profile stays |
| ManageProfileScreen.RemoveNamedKeepsOrder | src/Screens/ManageProfileScreen.js:99 | the survivors of any prefix of the list are a prefix of the result |
| ManageProfileScreen.RemoveNamedUnchangedIff | src/Screens/ManageProfileScreen.js:99 | removal leaves the list unchanged exactly when the name is absent |
| ManageProfileScreen.ReplaceNamedRenames | src/Screens/ManageProfileScreen.js:83-87 | renaming all namesakes to another name leaves no profile with the old name |
| ManageProfileScreen.ReplaceNamedUnchangedIff | src/Screens/ManageProfileScreen.js:83-87 | rewriting namesakes is a no-op exactly when each of them already equals the replacement |
| ManageProfileScreen.AddOrEditProfile | src/Screens/ManageProfileScreen.js:80-96 | a blank name alerts and changes nothing; with no selection exactly one drafted profile is appended; with a selection all namesakes are rewritten, others unchanged, length kept; the list is saved and the editor reset |
| ManageProfileScreen.DeleteProfile | src/Screens/ManageProfileScreen.js:98-102 | no profile with the target's name remains; every other profile keeps all its copies, and the survivors of each prefix of the list lead the result, so order is kept; the list is unchanged exactly when the name was absent; the result is saved |
| ManageProfileScreen.PressProfile | src/Screens/ManageProfileScreen.js:104-117 | in edit mode the pressed profile becomes the selection and pre-fills name and image; otherwise it navigates home with its name |
| ManageProfileScreen.ChangesArePersisted | src/Screens/ManageProfileScreen.js:80-102 | after any accepted save and after any delete, the store loads the list the screen shows, up to image normalisation |
| ManageProfileScreen.SaveUnchangedEditIff | src/Screens/ManageProfileScreen.js:82-87 | selecting a profile and saving it untouched is a no-op exactly when all its namesakes equal it |
| MyNetflixScreen.Initial | src/Screens/MyNetflixScreen.js:20-22 | before any load the selection is `{image: null, name: "User"}` and settings are hidden |
| MyNetflixScreen.LoadProfiles | src/Screens/MyNetflixScreen.js:24-47 | the loaded list has one profile per stored name; a non-empty list selects its first profile; a missing key or empty list keeps the selection |
| MyNetflixScreen.LoadSelectsFirstSaved | src/Screens/MyNetflixScreen.js:39-41 | after a non-empty list is saved, loading selects its first profile with its image normalised |
| MyNetflixScreen.Logout | src/Screens/MyNetflixScreen.js:62-69 | removes exactly the six user keys and keeps every other entry |
| MyNetflixScreen.ProfilesSurviveLogout | src/Screens/MyNetflixScreen.js:62-69 | the profile keys are not among them, so the stored profiles load the same after sign-out |
| MyNetflixScreen.ToggleSettings | src/Screens/MyNetflixScreen.js:80-82 | negates settings visibility and keeps the rest |
| MyNetflixScreen.ToggleTwiceRestores | src/Screens/MyNetflixScreen.js:80-82 | toggling twice restores the screen |
| Downloads.Initial | src/contexts/DownloadContext.js:7 | the downloads list starts empty |
| Downloads.AddToDownloads | src/contexts/DownloadContext.js:9-11 | grows by exactly one, the movie is last, and earlier entries are unchanged and in order |
| Downloads.AddAllAppends | src/contexts/DownloadContext.js:9-11 | a series of additions appends the movies in the order added |
| Downloads.DownloadsRecordAdditions | src/contexts/DownloadContext.js:7-10 | from a fresh provider, the list is exactly the sequence of additions |
| Downloads.AddingTwiceKeepsBoth | src/contexts/DownloadContext.js:10 | there is no deduplication: adding a movie twice adds two copies |
| CrossScreen.SavedListLoadsAlike | src/Screens/ManageProfileScreen.js:37-60 | a list saved by any screen loads to the same list on all three screens |
| CrossScreen.ManagerDeleteSeenByPicker | src/Screens/ManageProfileScreen.js:98-102 | after the manager deletes a name, the picker reloads a list without that name |
| CrossScreen.PickerSaveSeenByHome | src/Screens/MyNetflixScreen.js:29-41 | after the picker saves, the home tab loads that list and selects its first profile record, name and image |
| CrossScreen.LogoutKeepsProfiles | src/Screens/MyNetflixScreen.js:62-69 | sign-out does not change what either profile screen loads |

## Left out

- Device store I/O is modelled as one atomic map update. Its asynchrony, the two separate non-atomic `setItem` writes, and errors that are caught and only logged are not modelled.
- JSON is taken as the identity. A stored value whose shape is not what `Save` writes counts as unreadable, and the screen keeps its list. In the source, a stored images value that parses to a string would instead be indexed character by character. That case is not modelled.
- Image-picker and permission requests are foreign library calls. The chosen image URI is an input, and `None` means the pick was cancelled.
- Navigation (`navigate`, `goBack`, `reset`) is reduced to the `NavigateHome` result of a tile press. The sign-out navigation and "Logged out" alert, and `navigateToManageProfile`, are not modelled.
- Rendering, styles, the edit-mode toggle button, and the focus-triggered reloads are UI wiring and are not modelled.
- MyNetflixScreen.Logout: the case where `multiRemove` fails, is caught and only logged is not modelled.
- The location and connectivity contexts, the navigation layout, the static "Coming Soon" screen and the downloads list screen are not part of this model. They hold floating-point trigonometry, platform subscriptions and alerts, or rendering only.
- `MyListContext` is not part of this model, because its source is not available.
