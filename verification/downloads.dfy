/**
 * The downloads context: an in-memory list of movies that only grows.
 * Movies are opaque records, hence the type parameter.
 */
module Downloads {

  /** The list a fresh provider starts with. */
  function Initial<M>(): (r: seq<M>)
    ensures |r| == 0
  {
    []
  }

  /** `addToDownloads(movie)`: the movie goes at the end, the earlier entries
      stay as they were, and nothing is deduplicated. */
  function AddToDownloads<M>(downloads: seq<M>, movie: M): (r: seq<M>)
    ensures |r| == |downloads| + 1
    ensures r[..|downloads|] == downloads
    ensures r[|downloads|] == movie
  {
    downloads + [movie]
  }

  /** Adding `movies` one after another, in order. */
  function AddAll<M>(downloads: seq<M>, movies: seq<M>): seq<M>
    decreases |movies|
  {
    if movies == [] then downloads
    else AddAll(AddToDownloads(downloads, movies[0]), movies[1..])
  }

  /** The downloads list is exactly the movies added, in the order added. */
  lemma {:induction false} AddAllAppends<M>(downloads: seq<M>, movies: seq<M>)
    ensures AddAll(downloads, movies) == downloads + movies
    decreases |movies|
  {
    if movies != [] {
      AddAllAppends(AddToDownloads(downloads, movies[0]), movies[1..]);
      assert downloads + [movies[0]] + movies[1..] == downloads + movies;
    }
  }

  /** Starting from a fresh provider, the list is the sequence of additions. */
  lemma DownloadsRecordAdditions<M>(movies: seq<M>)
    ensures AddAll(Initial(), movies) == movies
  {
    AddAllAppends(Initial(), movies);
  }

  /** Adding the same movie twice leaves two more copies of it. */
  lemma AddingTwiceKeepsBoth<M>(downloads: seq<M>, movie: M)
    ensures multiset(AddToDownloads(AddToDownloads(downloads, movie), movie))[movie]
            == multiset(downloads)[movie] + 2
  {
    assert AddToDownloads(AddToDownloads(downloads, movie), movie) == downloads + [movie] + [movie];
  }
}
