/**
 * The profile record that the profile picker, the profile manager and the
 * "My Netflix" screen all list, and the `image || null` normalisation the
 * three loaders apply to it.
 */
module Profiles {

  /** A JavaScript value that is either present or `null`. */
  datatype Option<+T> = None | Some(value: T)

  /** One viewer profile: its display name and the URI of its picture, or null. */
  datatype Profile = Profile(name: string, image: Option<string>)

  /** JavaScript truthiness of an image value: `null` and `""` are falsy. */
  predicate IsTruthy(image: Option<string>) {
    image.Some? && image.value != ""
  }

  /** `image || null`: a truthy image is kept, a falsy one becomes null. */
  function OrNull(image: Option<string>): (r: Option<string>)
    ensures r.Some? <==> IsTruthy(image)
    ensures r.Some? ==> r == image
  {
    if IsTruthy(image) then image else None
  }

  /** A profile whose image comes through `|| null` unchanged: its image is
      not the empty string. */
  predicate HasNormalImage(p: Profile) {
    p.image != Some("")
  }

  /** Every profile of `ps` with its image passed through `|| null`. */
  function NormalizeImages(ps: seq<Profile>): (r: seq<Profile>)
    ensures |r| == |ps|
    ensures forall k :: 0 <= k < |r| ==> r[k].name == ps[k].name && HasNormalImage(r[k])
    ensures forall k :: 0 <= k < |r| ==> r[k].image == OrNull(ps[k].image)
  {
    seq(|ps|, k requires 0 <= k < |ps| => Profile(ps[k].name, OrNull(ps[k].image)))
  }

  /** Normalisation changes a list exactly when some image in it is "". */
  lemma NormalizeImagesFixesNormalLists(ps: seq<Profile>)
    ensures NormalizeImages(ps) == ps <==> forall k :: 0 <= k < |ps| ==> HasNormalImage(ps[k])
  {
    if forall k :: 0 <= k < |ps| ==> HasNormalImage(ps[k]) {
      forall k | 0 <= k < |ps|
        ensures NormalizeImages(ps)[k] == ps[k]
      {
        assert HasNormalImage(ps[k]);
      }
    }
  }

  /** Normalising a second time changes nothing. */
  lemma NormalizeImagesIdempotent(ps: seq<Profile>)
    ensures NormalizeImages(NormalizeImages(ps)) == NormalizeImages(ps)
  {
    NormalizeImagesFixesNormalLists(NormalizeImages(ps));
  }
}
