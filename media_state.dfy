/**
 * The media index built once at start-up: the non-empty sequence of
 * canonical image paths found below the configured root.
 */
module Media {

  import opened Wrappers
  import opened FileTree
  import opened Walker

  /** Why construction failed; the source reports each as a message. */
  datatype StateError =
    | NotADirectory  // the root is not a directory
    | WalkFailed     // the root's own listing or one of its entries failed
    | NoImages       // the walk succeeded but found nothing

  datatype MediaState = MediaState(paths: seq<string>)
  {
    /** The invariant construction establishes: there is something to serve. */
    predicate Valid()
    {
      |paths| > 0
    }

    /** The number of indexed paths, at least one in a valid index. */
    function ImageCount(): (n: nat)
      ensures n == |paths|
      ensures Valid() ==> n >= 1
    {
      |paths|
    }

    /**
     * The path at a randomly drawn position.  The draw is left to the
     * caller, who supplies an index in `[0, ImageCount())`; a valid index
     * always admits one.
     */
    function GetRandomImage(index: nat): (p: string)
      requires index < ImageCount()
      ensures p in paths
      ensures p == paths[index]
    {
      paths[index]
    }

    /**
     * Builds the index for `root`: rejects a root that is not a directory,
     * a walk that fails at the root level and a walk that finds nothing;
     * otherwise keeps exactly the paths the walk collected.
     */
    static method New(root: Node) returns (r: Result<MediaState, StateError>)
      ensures !root.Dir? ==> r == Err(NotADirectory)
      ensures root.Dir? && !Walk(root).ok ==> r == Err(WalkFailed)
      ensures root.Dir? && Walk(root).ok && Walk(root).paths == [] ==> r == Err(NoImages)
      ensures r.Ok? <==> root.Dir? && Walk(root).ok && |Walk(root).paths| > 0
      ensures r.Ok? ==> r.value.paths == Walk(root).paths && r.value.Valid()
    {
      if !root.Dir? {
        return Err(NotADirectory);
      }
      var found := FindAbsoluteImagePath(root);
      match found {
        case Ok(paths) =>
          if |paths| > 0 {
            return Ok(MediaState(paths));
          } else {
            return Err(NoImages);
          }
        case Err(_) =>
          return Err(WalkFailed);
      }
    }
  }

  /** Every indexed path is the answer for some admissible index, so the
      random choice can reach each of them. */
  lemma {:induction false} EveryImageSelectable(state: MediaState, p: string)
    requires p in state.paths
    ensures state.Valid()
    ensures exists i :: 0 <= i < state.ImageCount() && state.GetRandomImage(i) == p
  {
    var i :| 0 <= i < |state.paths| && state.paths[i] == p;
    assert state.GetRandomImage(i) == p;
  }
}
