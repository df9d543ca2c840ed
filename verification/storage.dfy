/**
 * How the profile list is persisted in the device's key-value store: split
 * into two parallel arrays under two keys, and zipped back together on load.
 * JSON serialisation is taken as the identity, so a stored value is the
 * decoded JSON value itself.
 */
module Storage {
  import opened Profiles

  /** A decoded value of the store. Profile names are written as an array of
      strings, profile images as an array of strings and nulls; other keys
      (the signed-in user's details) hold plain strings. */
  datatype StoredValue =
    | NameArray(names: seq<string>)
    | ImageArray(images: seq<Option<string>>)
    | RawString(text: string)

  /** The device store: keys that are absent read as `null`. */
  type Store = map<string, StoredValue>

  const NamesKey: string := "profiles_names"
  const ImagesKey: string := "profiles_images"

  /** `saveProfiles`: one array of names and one array of images, each with
      one entry per profile, written over whatever the two keys held. */
  function Save(store: Store, ps: seq<Profile>): (r: Store)
    ensures r.Keys == store.Keys + {NamesKey, ImagesKey}
    ensures forall key :: key in store && key != NamesKey && key != ImagesKey ==> r[key] == store[key]
    ensures r[NamesKey].NameArray? && |r[NamesKey].names| == |ps|
    ensures r[ImagesKey].ImageArray? && |r[ImagesKey].images| == |ps|
    ensures forall k :: 0 <= k < |ps| ==> r[NamesKey].names[k] == ps[k].name
    ensures forall k :: 0 <= k < |ps| ==> r[ImagesKey].images[k] == ps[k].image
  {
    store[NamesKey := NameArray(seq(|ps|, k requires 0 <= k < |ps| => ps[k].name))]
         [ImagesKey := ImageArray(seq(|ps|, k requires 0 <= k < |ps| => ps[k].image))]
  }

  /** `images[k] || null`, where reading past the end of the array gives
      `undefined`, which is falsy too. */
  function ImageAt(images: seq<Option<string>>, k: nat): (r: Option<string>)
    ensures r.Some? <==> k < |images| && IsTruthy(images[k])
    ensures r.Some? ==> r == images[k]
  {
    if k < |images| then OrNull(images[k]) else None
  }

  /** Both keys are present and hold arrays of the shapes `Save` writes. */
  predicate Readable(store: Store) {
    && NamesKey in store && store[NamesKey].NameArray?
    && ImagesKey in store && store[ImagesKey].ImageArray?
  }

  /** `loadProfiles` without the state update: the names array zipped with the
      images array, or None (the screen keeps its list) when either key is
      missing or unreadable. */
  function Load(store: Store): (r: Option<seq<Profile>>)
    ensures r.Some? <==> Readable(store)
    ensures r.Some? ==> |r.value| == |store[NamesKey].names|
    ensures r.Some? ==> forall k :: 0 <= k < |r.value| ==>
              r.value[k] == Profile(store[NamesKey].names[k], ImageAt(store[ImagesKey].images, k))
  {
    if Readable(store) then
      var names := store[NamesKey].names;
      var images := store[ImagesKey].images;
      Some(seq(|names|, k requires 0 <= k < |names| => Profile(names[k], ImageAt(images, k))))
    else
      None
  }

  /** Loading what was saved gives back the same names in the same order,
      each image unchanged if truthy and null otherwise. */
  lemma LoadAfterSave(store: Store, ps: seq<Profile>)
    ensures Load(Save(store, ps)) == Some(NormalizeImages(ps))
  {
    var saved := Save(store, ps);
    var loaded := Load(saved).value;
    forall k | 0 <= k < |ps|
      ensures loaded[k] == NormalizeImages(ps)[k]
    {
      assert saved[ImagesKey].images[k] == ps[k].image;
    }
    assert loaded == NormalizeImages(ps);
  }

  /** The round trip is exact precisely when no image is the empty string. */
  lemma LoadAfterSaveExact(store: Store, ps: seq<Profile>)
    ensures Load(Save(store, ps)) == Some(ps) <==> forall k :: 0 <= k < |ps| ==> HasNormalImage(ps[k])
  {
    LoadAfterSave(store, ps);
    NormalizeImagesFixesNormalLists(ps);
  }

  /** A loaded list is already normal: saving and loading it again, into any
      store, gives it back unchanged. */
  lemma LoadedListIsStable(store: Store, other: Store)
    requires Load(store).Some?
    ensures Load(Save(other, Load(store).value)) == Load(store)
  {
    var ps := Load(store).value;
    forall k | 0 <= k < |ps|
      ensures HasNormalImage(ps[k])
    {
    }
    LoadAfterSaveExact(other, ps);
  }

  /** Load reads nothing but the two profile keys. */
  lemma LoadReadsOnlyProfileKeys(a: Store, b: Store)
    requires NamesKey in a <==> NamesKey in b
    requires ImagesKey in a <==> ImagesKey in b
    requires NamesKey in a ==> a[NamesKey] == b[NamesKey]
    requires ImagesKey in a ==> a[ImagesKey] == b[ImagesKey]
    ensures Load(a) == Load(b)
  {
  }
}
