/**
 * What the walker promises, proved about its specification `Walk`:
 * recovery from failing subdirectories, propagation of failures at the
 * level being listed, exact results on trees without errors, and
 * soundness (only filter-accepted files, in visit order) on every tree.
 */
module WalkProperties {

  import opened Wrappers
  import opened FileTree
  import opened PathFilter
  import opened Walker

  /** The filter applied to each node of a sequence, accepted paths kept in order. */
  function FilterAll(ns: seq<Node>): seq<string>
  {
    if ns == [] then [] else Accepted(ns[0]) + FilterAll(ns[1..])
  }

  /** Every image below `n` at any depth, in depth-first order. */
  function Images(n: Node): seq<string>
  {
    FilterAll(Files(n))
  }

  /** `a` is `b` with some elements left out. */
  predicate IsSubsequence<T(==)>(a: seq<T>, b: seq<T>)
    decreases |b|
  {
    if b == [] then a == []
    else (a != [] && a[0] == b[0] && IsSubsequence(a[1..], b[1..])) || IsSubsequence(a, b[1..])
  }

  // ---------------------------------------------------------------- helpers

  lemma {:induction false} EmptyIsSubsequence<T>(b: seq<T>)
    ensures IsSubsequence([], b)
    decreases |b|
  {
    if b != [] {
      EmptyIsSubsequence(b[1..]);
    }
  }

  lemma {:induction false} SubsequenceConcat<T>(a1: seq<T>, b1: seq<T>, a2: seq<T>, b2: seq<T>)
    requires IsSubsequence(a1, b1) && IsSubsequence(a2, b2)
    ensures IsSubsequence(a1 + a2, b1 + b2)
    decreases |b1|
  {
    if b1 == [] {
      assert a1 + a2 == a2 && b1 + b2 == b2;
    } else {
      assert (b1 + b2)[0] == b1[0] && (b1 + b2)[1..] == b1[1..] + b2;
      if a1 != [] && a1[0] == b1[0] && IsSubsequence(a1[1..], b1[1..]) {
        SubsequenceConcat(a1[1..], b1[1..], a2, b2);
        assert (a1 + a2)[0] == a1[0] && (a1 + a2)[1..] == a1[1..] + a2;
      } else {
        SubsequenceConcat(a1, b1[1..], a2, b2);
      }
    }
  }

  lemma {:induction false} SubsequenceMember<T>(a: seq<T>, b: seq<T>, x: T)
    requires IsSubsequence(a, b) && x in a
    ensures x in b
    decreases |b|
  {
    if a[0] == b[0] && IsSubsequence(a[1..], b[1..]) {
      if x != a[0] {
        SubsequenceMember(a[1..], b[1..], x);
      }
    } else {
      SubsequenceMember(a, b[1..], x);
    }
  }

  lemma {:induction false} FilterAllConcat(xs: seq<Node>, ys: seq<Node>)
    ensures FilterAll(xs + ys) == FilterAll(xs) + FilterAll(ys)
  {
    if xs == [] {
      assert xs + ys == ys;
    } else {
      assert (xs + ys)[1..] == xs[1..] + ys;
      FilterAllConcat(xs[1..], ys);
    }
  }

  lemma {:induction false} FilterAllMember(ns: seq<Node>, p: string)
    requires p in FilterAll(ns)
    ensures exists m :: m in ns && CanonicalPathIfImage(m) == Some(p)
  {
    if p in Accepted(ns[0]) {
      assert CanonicalPathIfImage(ns[0]) == Some(p);
    } else {
      FilterAllMember(ns[1..], p);
      var m :| m in ns[1..] && CanonicalPathIfImage(m) == Some(p);
      assert m in ns;
    }
  }

  lemma {:induction false} CombineConcat(s: seq<Step>, t: seq<Step>)
    ensures Combine(s + t) ==
      if Combine(s).ok then Walked(Combine(s).paths + Combine(t).paths, Combine(t).ok) else Combine(s)
  {
    if s == [] {
      assert s + t == t;
    } else {
      assert (s + t)[0] == s[0] && (s + t)[1..] == s[1..] + t;
      CombineConcat(s[1..], t);
    }
  }

  lemma StepsOfConcat(a: seq<Item>, b: seq<Item>)
    ensures StepsOf(Dir(Listed(a + b))) == StepsOf(Dir(Listed(a))) + StepsOf(Dir(Listed(b)))
  {
  }

  // ------------------------------------------------------------ properties

  /** A directory whose iterator yields an error fails; the paths pushed
      before the erroneous entry are still reported. */
  lemma LevelFailurePropagates(items: seq<Item>, k: nat)
    requires k < |items| && items[k] == EntryError
    ensures !Walk(Dir(Listed(items))).ok
    ensures Walk(Dir(Listed(items))).paths == Walk(Dir(Listed(items[..k]))).paths
  {
    var pre := StepsOf(Dir(Listed(items[..k])));
    var mid := StepsOf(Dir(Listed([EntryError])));
    var post := StepsOf(Dir(Listed(items[k + 1..])));
    assert mid == [Aborted];
    assert items == items[..k] + [EntryError] + items[k + 1..];
    StepsOfConcat(items[..k] + [EntryError], items[k + 1..]);
    StepsOfConcat(items[..k], [EntryError]);
    assert StepsOf(Dir(Listed(items))) == pre + mid + post;
    CombineConcat(pre + mid, post);
    CombineConcat(pre, mid);
  }

  /**
   * Local recovery: a subdirectory entry contributes whatever its own walk
   * pushed, even when that walk failed, and the siblings after it are
   * still visited; only entries of this directory decide its status.
   */
  lemma LocalRecovery(before: seq<Item>, sub: Node, after: seq<Item>)
    requires sub.Dir?
    ensures
      var pre := Walk(Dir(Listed(before)));
      var post := Walk(Dir(Listed(after)));
      Walk(Dir(Listed(before + [Entry(sub)] + after))) ==
        if pre.ok then Walked(pre.paths + Walk(sub).paths + post.paths, post.ok) else pre
  {
    var whole := before + [Entry(sub)] + after;
    var pre := StepsOf(Dir(Listed(before)));
    var mid := StepsOf(Dir(Listed([Entry(sub)])));
    var post := StepsOf(Dir(Listed(after)));
    assert mid[0] == StepOf(Entry(sub)) == Pushed(Walk(sub).paths);
    assert mid == [Pushed(Walk(sub).paths)];
    StepsOfConcat(before + [Entry(sub)], after);
    StepsOfConcat(before, [Entry(sub)]);
    assert StepsOf(Dir(Listed(whole))) == pre + mid + post;
    CombineConcat(pre + mid, post);
    CombineConcat(pre, mid);
    assert Combine(mid) == Walked(Walk(sub).paths, true);
  }

  /** On a directory without any listing or entry error, the walk succeeds
      and yields exactly the images at every depth, in visit order. */
  lemma {:induction false} WalkErrorFree(n: Node)
    requires n.Dir? && ErrorFree(n)
    ensures Walk(n) == Walked(Images(n), true)
    decreases n
  {
    var items := n.listing.items;
    var steps := StepsOf(n);
    var parts := FilesPerEntry(n);
    forall i | 0 <= i < |items|
      ensures steps[i] == Pushed(FilterAll(parts[i]))
    {
      var m := items[i].node;
      assert steps[i] == StepOf(items[i]) && parts[i] == ItemFiles(items[i]) == Files(m);
      if m.Dir? {
        WalkErrorFree(m);
      } else {
        assert Files(m) == [m];
        assert FilterAll([m]) == Accepted(m) + FilterAll([]);
      }
    }
    CombineAllPushed(steps, parts);
  }

  lemma {:induction false} CombineAllPushed(steps: seq<Step>, parts: seq<seq<Node>>)
    requires |steps| == |parts|
    requires forall i :: 0 <= i < |steps| ==> steps[i] == Pushed(FilterAll(parts[i]))
    ensures Combine(steps) == Walked(FilterAll(Flatten(parts)), true)
  {
    if steps != [] {
      CombineAllPushed(steps[1..], parts[1..]);
      FilterAllConcat(parts[0], Flatten(parts[1..]));
    }
  }

  /**
   * Soundness on every tree: what a walk appends is the sequence of images
   * below it with some left out (those of subtrees cut short by an
   * error), so each appended path is the filter's answer for some
   * non-directory entry of the subtree.
   */
  lemma {:induction false} WalkAppendsOnlyImages(n: Node)
    ensures IsSubsequence(Walk(n).paths, Images(n))
    ensures forall p :: p in Walk(n).paths ==>
      exists m :: m in Files(n) && !m.Dir? && CanonicalPathIfImage(m) == Some(p)
    decreases n
  {
    WalkIsSubsequence(n);
    forall p | p in Walk(n).paths
      ensures exists m :: m in Files(n) && !m.Dir? && CanonicalPathIfImage(m) == Some(p)
    {
      SubsequenceMember(Walk(n).paths, Images(n), p);
      FilterAllMember(Files(n), p);
      var m :| m in Files(n) && CanonicalPathIfImage(m) == Some(p);
      FilesAreNotDirectories(n, m);
    }
  }

  lemma {:induction false} WalkIsSubsequence(n: Node)
    ensures IsSubsequence(Walk(n).paths, Images(n))
    decreases n
  {
    match n {
      case Dir(Listed(items)) =>
        var steps := StepsOf(n);
        var parts := FilesPerEntry(n);
        forall i | 0 <= i < |items| && steps[i].Pushed?
          ensures IsSubsequence(steps[i].appended, FilterAll(parts[i]))
        {
          assert steps[i] == StepOf(items[i]) && parts[i] == ItemFiles(items[i]);
          var m := items[i].node;
          assert parts[i] == Files(m);
          if m.Dir? {
            WalkIsSubsequence(m);
          } else {
            assert Files(m) == [m];
            assert FilterAll([m]) == Accepted(m) + FilterAll([]);
            SubsequenceReflexive(Accepted(m));
          }
        }
        CombineSubsequence(steps, parts);
      case _ =>
        EmptyIsSubsequence(Images(n));
    }
  }

  lemma {:induction false} SubsequenceReflexive<T>(a: seq<T>)
    ensures IsSubsequence(a, a)
    decreases |a|
  {
    if a != [] {
      SubsequenceReflexive(a[1..]);
    }
  }

  lemma {:induction false} CombineSubsequence(steps: seq<Step>, parts: seq<seq<Node>>)
    requires |steps| == |parts|
    requires forall i :: 0 <= i < |steps| && steps[i].Pushed? ==>
      IsSubsequence(steps[i].appended, FilterAll(parts[i]))
    ensures IsSubsequence(Combine(steps).paths, FilterAll(Flatten(parts)))
  {
    if steps == [] {
      EmptyIsSubsequence<string>([]);
    } else {
      FilterAllConcat(parts[0], Flatten(parts[1..]));
      match steps[0] {
        case Aborted =>
          EmptyIsSubsequence(FilterAll(Flatten(parts)));
        case Pushed(p) =>
          CombineSubsequence(steps[1..], parts[1..]);
          SubsequenceConcat(p, FilterAll(parts[0]), Combine(steps[1..]).paths, FilterAll(Flatten(parts[1..])));
      }
    }
  }
}
