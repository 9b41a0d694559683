/**
 * The recursive media walker.  `Walk` is the specification: what one call
 * of the walker appends to the shared accumulator and whether it reports
 * success.  `FindImagesRecursively` is the walker itself, a loop over the
 * entries of one directory that pushes into a caller-owned accumulator.
 */
module Walker {

  import opened Wrappers
  import opened FileTree
  import opened PathFilter

  /** The opaque `std::io::Error` of a failed walk. */
  datatype IoError = IoError

  /** What one walker call appends, and whether it returns `Ok`. */
  datatype Walked = Walked(paths: seq<string>, ok: bool)

  /** The effect of one directory entry on the walk of its parent: it
      appends some paths, or it stops the parent's loop with an error. */
  datatype Step = Pushed(appended: seq<string>) | Aborted

  /** The filter's answer as a sequence of zero or one paths. */
  function Accepted(n: Node): seq<string>
  {
    match CanonicalPathIfImage(n)
    case Some(p) => [p]
    case None => []
  }

  /**
   * The walk of `n`: nothing, successfully, for a non-directory; an error
   * with nothing appended when the listing fails; otherwise the entries'
   * effects combined in order.
   */
  function Walk(n: Node): (w: Walked)
    ensures !n.Dir? ==> w == Walked([], true)
    ensures n == Dir(ReadDirError) ==> w == Walked([], false)
    ensures n.Dir? && n.listing.Listed? ==>
      (w.ok <==> forall i :: 0 <= i < |n.listing.items| ==> n.listing.items[i].Entry?)
    decreases n, 1
  {
    match n
    case Dir(ReadDirError) => Walked([], false)
    case Dir(Listed(items)) =>
      var steps := StepsOf(n);
      assert forall i :: 0 <= i < |items| ==> steps[i] == StepOf(items[i]);
      Combine(steps)
    case _ => Walked([], true)
  }

  function StepsOf(n: Node): (r: seq<Step>)
    requires n.Dir? && n.listing.Listed?
    ensures |r| == |n.listing.items|
    decreases n, 0
  {
    var items := n.listing.items;
    seq(|items|, i requires 0 <= i < |items| => StepOf(items[i]))
  }

  /**
   * One entry: an iterator error aborts the parent; a subdirectory appends
   * whatever its own walk appended, whether or not that walk failed; any
   * other entry appends what the filter accepts.
   */
  function StepOf(item: Item): (r: Step)
    ensures r.Aborted? <==> item.EntryError?
    decreases item, 2
  {
    match item
    case EntryError => Aborted
    case Entry(m) => if m.Dir? then Pushed(Walk(m).paths) else Pushed(Accepted(m))
  }

  /** Runs the steps in order, stopping at the first that aborts. */
  function Combine(steps: seq<Step>): (w: Walked)
    ensures w.ok <==> forall i :: 0 <= i < |steps| ==> steps[i].Pushed?
  {
    assert forall i :: 1 <= i < |steps| ==> steps[i] == steps[1..][i - 1];
    if steps == [] then Walked([], true)
    else match steps[0]
      case Aborted => Walked([], false)
      case Pushed(p) =>
        var rest := Combine(steps[1..]);
        Walked(p + rest.paths, rest.ok)
  }

  /** The caller-owned `Vec<String>` that every level of the walk pushes into. */
  class PathAccumulator {
    var paths: seq<string>

    constructor ()
      ensures paths == []
    {
      paths := [];
    }

    method Push(p: string)
      modifies this
      ensures paths == old(paths) + [p]
    {
      paths := paths + [p];
    }
  }

  /**
   * Appends to `acc` the eligible paths below `current`, depth first.  A
   * failing subdirectory is tolerated and its siblings are still visited;
   * a failing listing or entry at this level ends the call with `Err`,
   * and what was pushed before stays in `acc`.
   */
  method FindImagesRecursively(current: Node, acc: PathAccumulator) returns (r: Result<(), IoError>)
    modifies acc
    ensures acc.paths == old(acc.paths) + Walk(current).paths
    ensures r.Ok? == Walk(current).ok
    ensures !current.Dir? ==> r.Ok? && acc.paths == old(acc.paths)
    decreases current
  {
    if !current.Dir? {
      return Ok(());
    }
    match current.listing {
      case ReadDirError =>
        return Err(IoError);
      case Listed(items) =>
        ghost var steps := StepsOf(current);
        var i := 0;
        while i < |items|
          invariant 0 <= i <= |items|
          invariant acc.paths + Combine(steps[i..]).paths == old(acc.paths) + Walk(current).paths
          invariant Combine(steps[i..]).ok == Walk(current).ok
        {
          assert steps[i..][0] == StepOf(items[i]) && steps[i..][1..] == steps[i + 1..];
          match items[i] {
            case EntryError =>
              return Err(IoError);
            case Entry(m) =>
              if m.Dir? {
                // The error of a subdirectory is only logged.
                var _ := FindImagesRecursively(m, acc);
              } else {
                var found := CanonicalPathIfImage(m);
                if found.Some? {
                  acc.Push(found.value);
                }
              }
          }
          i := i + 1;
        }
        return Ok(());
    }
  }

  /** Walks `root` into a fresh accumulator; a failure at the root level
      discards whatever was collected. */
  method FindAbsoluteImagePath(root: Node) returns (r: Result<seq<string>, IoError>)
    ensures r.Ok? <==> Walk(root).ok
    ensures r.Ok? ==> r.value == Walk(root).paths
  {
    var acc := new PathAccumulator();
    var status := FindImagesRecursively(root, acc);
    if status.Err? {
      return Err(IoError);
    }
    return Ok(acc.paths);
  }
}
