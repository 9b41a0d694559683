# Media indexing core of the random-art image server

The image server indexes the image files below one media root at start-up.
Each request for `/get_random_art` then serves one of them, picked at random,
as a JPEG thumbnail. This project models the part of `image_server/src/main.rs`
that makes decisions, and proves what it promises:

- the **path filter** (`get_canonical_path_if_image`): an entry is kept when it
  is a regular file whose lower-cased extension is `png`, `jpg` or `jpeg` and
  whose canonical path can be obtained;
- the **recursive walker** (`find_images_recursively`, `find_absolute_image_path`):
  a depth-first loop over directory entries that pushes into a caller-owned
  `Vec<String>`. A failing subdirectory is tolerated, while a failing listing
  or entry at the level being listed ends that call with an error;
- the **media state** (`MediaState::new`, `image_count`, `get_random_image`):
  the non-empty index and random access into it;
- the **error mapping** (`ImageError::into_response`) and the handler's mapping
  of the image pipeline's outcome to a response.

The filesystem is a finite tree (`FileTree.Node`). Each entry records what
`is_file`, `is_dir`, `extension`/`to_str` and `canonicalize` report for it.
Each directory records what `read_dir` yields: an immediate failure, or the
sequence of entry results in iteration order.

Modules, one file each:

- `Wrappers`: Option and Result.
- `FileTree`: the tree, plus `Files`, every non-directory entry reachable through successful listings.
- `PathFilter`: the filter.
- `Walker`: the specification `Walk` and the imperative walker over the `PathAccumulator` class.
- `WalkProperties`: the walker lemmas.
- `Media`: `MediaState`.
- `Responses`: errors, responses and the handler.

The walker method is proved against `Walk`: it leaves the accumulator equal to
its old contents followed by `Walk(current).paths`. The lemmas in
`WalkProperties` say what `Walk` means. A media state is built with the
`Media.MediaState.New` method, which runs the walker method. A request is then
`Responses.GetRandomArtHandler` applied to that state, a drawn index and the
image pipeline's outcome for the chosen path.

Points of the behaviour that are easy to misread:

- The walk fails when the root cannot be listed, and also when the root's
  iterator yields an entry error.
- Inside a subdirectory, an entry error ends that subdirectory's walk. The
  entries after it are not visited. What it pushed before stays indexed.
- The output order is the depth-first iteration order of the listings.
- The thumbnail bound is the constant 720, not a configured value.

## Model

| member | source | states |
|---|---|---|
| PathFilter.CanonicalPathIfImage | image_server/src/main.rs:84-101 | the filter returns a path exactly for an eligible entry (a regular file with a readable extension spelling png, jpg or jpeg in any case, and a successful canonicalisation, stated by `IsEligibleImage` without lower-casing), and that path is the canonical one |
| PathFilter.IsImageExtension | image_server/src/main.rs:24 | looking the lower-cased extension up in the table `ImageExtensions` (lines 90-94) accepts exactly png, jpg and jpeg in any mixture of cases |
| PathFilter.ToLowerMatchesIgnoringCase | image_server/src/main.rs:90-92 | lower-casing produces a given lower-case word exactly when the input spells it with any mixture of cases |
| PathFilter.FilterExamples | image_server/src/main.rs:86-100 | `.PNG`, `.Jpeg` are accepted; `gif`, a missing or non-UTF-8 extension, a failed canonicalisation, a special file and a directory are rejected |
| Walker.PathAccumulator.constructor | image_server/src/main.rs:128 | a new accumulator is empty |
| Walker.PathAccumulator.Push | image_server/src/main.rs:120 | pushing appends exactly one path at the end |
| Walker.Walk | image_server/src/main.rs:103-126 | the specification of one walker call: a non-directory gives Ok with nothing appended; an unreadable directory gives Err with nothing appended; a listed directory succeeds exactly when none of its own entries is an error, whatever its subdirectories do |
| Walker.StepOf | image_server/src/main.rs:111-121 | one entry aborts its parent's loop exactly when the iterator yielded an error; a subdirectory, even a failing one, only contributes paths |
| Walker.Combine | image_server/src/main.rs:110-124 | the entries are processed in order and the loop completes exactly when no entry aborts it |
| Walker.FindImagesRecursively | image_server/src/main.rs:103-126 | the walker only appends: the accumulator becomes its old contents followed by the walk's paths; its status is the walk's; on a non-directory it returns Ok and changes nothing |
| Walker.FindAbsoluteImagePath | image_server/src/main.rs:127-131 | succeeds exactly when the walk of the root succeeds, then returns the walk's paths; otherwise the partial paths are discarded |
| WalkProperties.LevelFailurePropagates | image_server/src/main.rs:111 | an entry error in the directory being listed makes the walk fail, keeping exactly the paths pushed before the failing entry (the `read_dir` failure of line 110 is stated by `Walker.Walk`) |
| WalkProperties.LocalRecovery | image_server/src/main.rs:114-117 | a subdirectory contributes whatever its walk pushed, even when that walk failed, and the siblings after it are still walked |
| WalkProperties.WalkErrorFree | image_server/src/main.rs:110-124 | on a directory tree with no listing or entry error the walk succeeds and yields exactly the filter-accepted files at every depth, in visit order |
| WalkProperties.WalkAppendsOnlyImages | image_server/src/main.rs:105-123 | on every tree the walk's paths are a subsequence of the subtree's images, and each path is the filter's answer for some non-directory entry of the subtree |
| Media.MediaState.Valid | image_server/src/main.rs:147-148 | the invariant `new` establishes: the index holds at least one path; `New` ensures it and the lower bound of `ImageCount` rests on it |
| Media.MediaState.New | image_server/src/main.rs:139-156 | fails with NotADirectory, WalkFailed or NoImages in exactly the three rejected cases; on success the paths are the walk's paths and the state is non-empty |
| Media.MediaState.ImageCount | image_server/src/main.rs:158-160 | the number of stored paths, at least one in a valid state |
| Media.MediaState.GetRandomImage | image_server/src/main.rs:162-168 | for a drawn index below the count, the path at that index, which is one of the indexed paths |
| Media.EveryImageSelectable | image_server/src/main.rs:162-168 | every indexed path is returned for some admissible index, and a state holding a path is valid |
| Responses.KindOf | image_server/src/main.rs:55-59 | the kind of each of the three error variants; its contract is carried by `IntoResponseIdentifiesKind` |
| Responses.MessagePrefix | image_server/src/main.rs:63-78 | the message prefix of each kind, as the source formats it; that the three are told apart is stated by `IntoResponseIdentifiesKind` |
| Responses.IntoResponse | image_server/src/main.rs:61-82 | every image error becomes status 500 with a text body made of the kind's prefix followed by the cause |
| Responses.IntoResponseIdentifiesKind | image_server/src/main.rs:55-80 | the three message prefixes are distinct: the error kind can be read back from any error response |
| Responses.StageError | image_server/src/main.rs:175-182 | open and format-guessing failures are IO errors, decoding failures Load errors, encoding failures Encode errors, carrying their cause; only encoded bytes succeed |
| Responses.GetRandomArtHandler | image_server/src/main.rs:171-191 | status 200 with type image/jpeg and the encoded bytes exactly when the pipeline's single run on the drawn path succeeds; otherwise status 500 naming the failing stage's kind |

Two further consequences of these members:

- On an error-free directory root (`root.Dir? && ErrorFree(root)`), `New` succeeds exactly when `Images(root)` is non-empty, and then `ImageCount()` is `|Images(root)|`. This follows from `WalkErrorFree` and `New`. A root that is not a directory is always rejected with `NotADirectory`, even if it is itself an image.
- An unreadable subdirectory does not stop its siblings from being indexed. This follows from `LocalRecovery`.

## Left out

- Server start-up is not modelled: logging set-up, the hard-wired media root, the `Router`, `TcpListener` binding, `axum::serve`, `Arc` sharing and the async runtime. They are I/O and concurrency plumbing.
- Logging (`info!`) is not modelled; it is a side effect only. A failing subdirectory's error is dropped where the source logs it.
- Randomness is not modelled. `rand::thread_rng().gen_range` becomes the `index` argument, whose bound is a precondition. Uniformity cannot be stated about a value passed in.
- Image decoding, format guessing, `thumbnail(720, 720)` and JPEG encoding are calls into the `image` crate. They are one oracle, `pipeline`, which receives the path and the bounds 720 and 720. Only the classification of its outcome is modelled.
- Real filesystem semantics are not modelled: symlink following, `fs::canonicalize`, non-UTF-8 names. They appear as fields and shapes of the tree nodes.
- An entry's kind is fixed in the tree. A filesystem that changes between the `is_dir` test and `read_dir` is not modelled.
- Symbolic-link cycles are not modelled. The source does not guard against them: it follows a cycle until the operating system refuses to resolve the ever longer path, which can index the same file many times or take exponentially long. The model does not describe such a walk.
- The message texts of `MediaState::new` are not modelled. Each becomes a `StateError` kind, and the directory name they embed is dropped.
- The `Display` text of library errors is modelled only as an opaque `cause` string appended after the prefix.
- The content type that the framework gives a `String` error body is not modelled (`contentType` is `None`).
- PathFilter.ToLower: folds ASCII letters only, while Rust's `to_lowercase` is full Unicode. No non-ASCII character lower-cases to one of the ASCII letters of `png`, `jpg` or `jpeg`, so the accept decision is the same. The lower-cased text of other extensions may differ.
