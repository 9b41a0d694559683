/**
 * The filesystem as the media indexer sees it: a finite tree of directory
 * entries.  What `Path::is_file`, `Path::is_dir`, `Path::extension`,
 * `OsStr::to_str` and `fs::canonicalize` would report for an entry is
 * recorded in the node itself, so the model needs no path resolution.
 */
module FileTree {

  import opened Wrappers

  /** The extension of an entry's path: absent, present but not valid
      UTF-8 (`to_str` fails), or readable text. */
  datatype Extension = NoExtension | NonUtf8 | Text(s: string)

  /**
   * One filesystem entry, after symbolic links are followed:
   * - `File`: a regular file; `canonical` is the UTF-8 text of its
   *   canonical path, or `None` when canonicalisation fails or its result
   *   is not valid UTF-8;
   * - `Dir`: a directory together with what listing it yields;
   * - `Special`: neither a regular file nor a directory (a socket, a fifo,
   *   a broken symbolic link).
   */
  datatype Node =
    | File(ext: Extension, canonical: Option<string>)
    | Dir(listing: Listing)
    | Special

  /** The outcome of `fs::read_dir` on a directory: an immediate failure, or
      the sequence of entry results its iterator produces, in order. */
  datatype Listing = ReadDirError | Listed(items: seq<Item>)

  /** One element produced by the directory iterator. */
  datatype Item = Entry(node: Node) | EntryError

  /** No listing anywhere in the tree fails, and no iterator yields an error. */
  predicate ErrorFree(n: Node)
    decreases n
  {
    match n
    case Dir(ReadDirError) => false
    case Dir(Listed(items)) =>
      forall i :: 0 <= i < |items| ==> items[i].Entry? && ErrorFree(items[i].node)
    case _ => true
  }

  /** Concatenation of a sequence of sequences. */
  function Flatten<T>(xss: seq<seq<T>>): seq<T>
  {
    if xss == [] then [] else xss[0] + Flatten(xss[1..])
  }

  lemma {:induction false} FlattenConcat<T>(xss: seq<seq<T>>, yss: seq<seq<T>>)
    ensures Flatten(xss + yss) == Flatten(xss) + Flatten(yss)
  {
    if xss == [] {
      assert xss + yss == yss;
    } else {
      assert (xss + yss)[1..] == xss[1..] + yss;
      FlattenConcat(xss[1..], yss);
    }
  }

  lemma {:induction false} FlattenMember<T>(xss: seq<seq<T>>, x: T)
    requires x in Flatten(xss)
    ensures exists i :: 0 <= i < |xss| && x in xss[i]
  {
    if x !in xss[0] {
      FlattenMember(xss[1..], x);
      var i :| 0 <= i < |xss[1..]| && x in xss[1..][i];
      assert x in xss[i + 1];
    }
  }

  /**
   * Every non-directory entry reached through successful listings, in
   * depth-first order: the entries a walk could ever hand to the path
   * filter.  Failed listings and failed entries contribute nothing, and
   * the entries after a failed one are still included.
   */
  function Files(n: Node): seq<Node>
    decreases n, 1
  {
    match n
    case Dir(ReadDirError) => []
    case Dir(Listed(_)) => Flatten(FilesPerEntry(n))
    case _ => [n]
  }

  function FilesPerEntry(n: Node): (r: seq<seq<Node>>)
    requires n.Dir? && n.listing.Listed?
    ensures |r| == |n.listing.items|
    decreases n, 0
  {
    var items := n.listing.items;
    seq(|items|, i requires 0 <= i < |items| => ItemFiles(items[i]))
  }

  function ItemFiles(item: Item): seq<Node>
    decreases item, 2
  {
    match item
    case EntryError => []
    case Entry(m) => Files(m)
  }

  /** `Files` never lists a directory. */
  lemma {:induction false} FilesAreNotDirectories(n: Node, m: Node)
    requires m in Files(n)
    ensures !m.Dir?
    decreases n
  {
    if n.Dir? && n.listing.Listed? {
      var parts := FilesPerEntry(n);
      FlattenMember(parts, m);
      var i :| 0 <= i < |parts| && m in parts[i];
      var item := n.listing.items[i];
      assert parts[i] == ItemFiles(item);
      FilesAreNotDirectories(item.node, m);
    }
  }
}
