/** The blog index: the posts are the MDX modules under `content/blog/`, each known by its
    file path and its frontmatter. */
module Blog {
  import opened Wrappers
  import opened Text

  /** The frontmatter fields a post declares. `slug` is a `slug` key the frontmatter may
      carry although the declared type has none; the spread copies it like any other. */
  datatype PostFrontmatter = PostFrontmatter(
    title: string, date: string, description: string,
    tags: Option<seq<string>>, readingTime: Option<string>, slug: Option<string>)

  /** A post module as the glob import lists it: its path and its frontmatter. */
  datatype PostModule = PostModule(path: string, frontmatter: PostFrontmatter)

  /** The frontmatter with the slug added. */
  datatype PostMeta = PostMeta(slug: string, frontmatter: PostFrontmatter)

  /** `file.replace(/\.mdx$/, '')`: one `.mdx` at the very end is removed. */
  function StripMdx(file: string): (r: string)
    ensures r == file || (file == r + ".mdx")
    ensures r != file <==> |file| >= 4 && file[|file| - 4..] == ".mdx"
  {
    if |file| >= 4 && file[|file| - 4..] == ".mdx" then file[..|file| - 4] else file
  }

  /** The text after the last `/`, without a trailing `.mdx`. */
  function SlugFromPath(path: string): (r: string)
    ensures '/' !in r
  {
    var pieces := Split(path, '/');
    var file := Last(pieces);
    assert '/' !in file;
    StripMdx(file)
  }

  /** The post of a module: `{ slug: slugFromPath(path), ...frontmatter }`, where a `slug` of
      the frontmatter, coming later, overrides the one of the path. */
  function MetaOf(m: PostModule): (r: PostMeta)
    ensures r.frontmatter == m.frontmatter
    ensures m.frontmatter.slug.None? ==> r.slug == SlugFromPath(m.path)
    ensures m.frontmatter.slug.Some? ==> r.slug == m.frontmatter.slug.value
  {
    var base := SlugFromPath(m.path);
    PostMeta(if m.frontmatter.slug.Some? then m.frontmatter.slug.value else base, m.frontmatter)
  }

  /** The key of the repository file `file` in the glob import of the posts directory,
      which is relative to `src/lib/`. */
  function GlobKey(file: string): (k: string)
    ensures |k| == |file| + 6 && k[..6] == "../../" && k[6..] == file
  {
    "../../" + file
  }

  /** What the glob import of `content/blog/` guarantees of its table: every key is the key
      of a file of that directory named after its own slug, and no key occurs twice. */
  predicate GlobModules(modules: seq<PostModule>) {
    (forall j :: 0 <= j < |modules| ==>
       modules[j].path == GlobKey("content/blog/" + SlugFromPath(modules[j].path) + ".mdx"))
    && (forall j, k :: 0 <= j < k < |modules| ==> modules[j].path != modules[k].path)
  }

  /** The glob key of a post file. */
  lemma PostGlobKey(slug: string)
    ensures GlobKey("content/blog/" + slug + ".mdx") == "../../content/blog/" + slug + ".mdx"
  {
    var f := "content/blog/" + slug + ".mdx";
    assert GlobKey(f) == "../../" + f;
    assert "../../" + f == ("../../" + "content/blog/") + slug + ".mdx";
  }

  /** A file named `<slug>.mdx` in any directory is read back as the slug. */
  lemma SlugFromWrittenPath(dir: string, slug: string)
    requires |dir| > 0 && dir[|dir| - 1] == '/' && '/' !in slug
    ensures SlugFromPath(dir + slug + ".mdx") == slug
  {
    var t := slug + ".mdx";
    assert '/' !in t by {
      forall i | 0 <= i < |t| ensures t[i] != '/' {
        if i < |slug| {
          assert t[i] == slug[i];
        }
      }
    }
    var front := dir[..|dir| - 1];
    assert dir + slug + ".mdx" == front + ['/'] + t;
    LastPieceAfter(front, '/', t);
    assert t[|t| - 4..] == ".mdx";
    assert t[..|t| - 4] == slug;
  }

  // ---------------------------------------------------------------------------
  // listing

  /** The posts ordered newest first by `time`, the millisecond time of a date string:
      pairwise, a post is never older than one after it. */
  predicate NewestFirst(ps: seq<PostMeta>, time: string -> int) {
    forall i, j :: 0 <= i < j < |ps| ==> time(ps[i].frontmatter.date) >= time(ps[j].frontmatter.date)
  }

  /** Placing `p` into a list that is newest first: after every post that is not older. */
  function Insert(p: PostMeta, ps: seq<PostMeta>, time: string -> int): seq<PostMeta>
    decreases |ps|
  {
    if ps == [] then [p]
    else if time(p.frontmatter.date) > time(ps[0].frontmatter.date) then [p] + ps
    else [ps[0]] + Insert(p, ps[1..], time)
  }

  /** Insertion adds `p` and loses nothing. */
  lemma {:induction false} InsertPermutes(p: PostMeta, ps: seq<PostMeta>, time: string -> int)
    ensures multiset(Insert(p, ps, time)) == multiset(ps) + multiset{p}
    decreases |ps|
  {
    if ps != [] && time(p.frontmatter.date) <= time(ps[0].frontmatter.date) {
      InsertPermutes(p, ps[1..], time);
      assert ps == [ps[0]] + ps[1..];
    }
  }

  /** Insertion brings in no post newer than `t` when `p` and `ps` hold none. */
  lemma {:induction false} InsertNoNewer(p: PostMeta, ps: seq<PostMeta>, time: string -> int, t: int)
    requires time(p.frontmatter.date) <= t
    requires forall k :: 0 <= k < |ps| ==> time(ps[k].frontmatter.date) <= t
    ensures forall k :: 0 <= k < |Insert(p, ps, time)| ==> time(Insert(p, ps, time)[k].frontmatter.date) <= t
    decreases |ps|
  {
    if ps != [] && time(p.frontmatter.date) <= time(ps[0].frontmatter.date) {
      var tail := ps[1..];
      assert forall k :: 0 <= k < |tail| ==> tail[k] == ps[k + 1];
      InsertNoNewer(p, tail, time, t);
    }
  }

  /** A post no older than every post of a newest-first list can head it. */
  lemma ConsNewestFirst(x: PostMeta, rest: seq<PostMeta>, time: string -> int)
    requires NewestFirst(rest, time)
    requires forall k :: 0 <= k < |rest| ==> time(rest[k].frontmatter.date) <= time(x.frontmatter.date)
    ensures NewestFirst([x] + rest, time)
  {
    var r := [x] + rest;
    forall i, j | 0 <= i < j < |r|
      ensures time(r[i].frontmatter.date) >= time(r[j].frontmatter.date)
    {
      assert r[j] == rest[j - 1];
      if i > 0 {
        assert r[i] == rest[i - 1];
      }
    }
  }

  /** The tail of a newest-first list is newest first, and no post in it is newer than the head. */
  lemma TailNewestFirst(ps: seq<PostMeta>, time: string -> int)
    requires ps != [] && NewestFirst(ps, time)
    ensures NewestFirst(ps[1..], time)
    ensures forall k :: 0 <= k < |ps[1..]| ==> time(ps[1..][k].frontmatter.date) <= time(ps[0].frontmatter.date)
  {
    var tail := ps[1..];
    assert forall k :: 0 <= k < |tail| ==> tail[k] == ps[k + 1];
  }

  /** Insertion keeps a list newest first. */
  lemma {:induction false} InsertNewestFirst(p: PostMeta, ps: seq<PostMeta>, time: string -> int)
    requires NewestFirst(ps, time)
    ensures NewestFirst(Insert(p, ps, time), time)
    decreases |ps|
  {
    if ps != [] && time(p.frontmatter.date) <= time(ps[0].frontmatter.date) {
      var tail := ps[1..];
      TailNewestFirst(ps, time);
      InsertNewestFirst(p, tail, time);
      InsertNoNewer(p, tail, time, time(ps[0].frontmatter.date));
      ConsNewestFirst(ps[0], Insert(p, tail, time), time);
    } else if ps != [] {
      ConsNewestFirst(p, ps, time);
    }
  }

  /** The comparator sort `(a, b) => time(b.date) - time(a.date)`, as the stable insertion of
      each post after the ones before it. */
  function SortByDate(ps: seq<PostMeta>, time: string -> int): (r: seq<PostMeta>)
    ensures multiset(r) == multiset(ps)
    ensures NewestFirst(r, time)
    decreases |ps|
  {
    if ps == [] then []
    else
      assert ps == ps[..|ps| - 1] + [ps[|ps| - 1]];
      var sorted := SortByDate(ps[..|ps| - 1], time);
      InsertNewestFirst(ps[|ps| - 1], sorted, time);
      InsertPermutes(ps[|ps| - 1], sorted, time);
      Insert(ps[|ps| - 1], sorted, time)
  }

  /** The posts of `ps` whose date has time `t`, in their order in `ps`. */
  function SameTime(ps: seq<PostMeta>, time: string -> int, t: int): seq<PostMeta>
    decreases |ps|
  {
    if ps == [] then []
    else (if time(ps[0].frontmatter.date) == t then [ps[0]] else []) + SameTime(ps[1..], time, t)
  }

  lemma {:induction false} SameTimeAppend(a: seq<PostMeta>, b: seq<PostMeta>, time: string -> int, t: int)
    ensures SameTime(a + b, time, t) == SameTime(a, time, t) + SameTime(b, time, t)
    decreases |a|
  {
    if a == [] {
      assert a + b == b;
    } else {
      var head: seq<PostMeta> := if time(a[0].frontmatter.date) == t then [a[0]] else [];
      assert (a + b)[0] == a[0];
      assert (a + b)[1..] == a[1..] + b;
      SameTimeAppend(a[1..], b, time, t);
      assert SameTime(a + b, time, t) == head + SameTime(a[1..] + b, time, t);
      assert SameTime(a, time, t) == head + SameTime(a[1..], time, t);
      assert head + (SameTime(a[1..], time, t) + SameTime(b, time, t))
             == (head + SameTime(a[1..], time, t)) + SameTime(b, time, t);
    }
  }

  /** A list whose every post is older than `t` has none of time `t`. */
  lemma {:induction false} SameTimeNone(ps: seq<PostMeta>, time: string -> int, t: int)
    requires forall k :: 0 <= k < |ps| ==> time(ps[k].frontmatter.date) < t
    ensures SameTime(ps, time, t) == []
    decreases |ps|
  {
    if ps != [] {
      var tail := ps[1..];
      assert forall k :: 0 <= k < |tail| ==> tail[k] == ps[k + 1];
      SameTimeNone(tail, time, t);
    }
  }

  /** Insertion into a newest-first list places `p` after every post of its own time. */
  lemma {:induction false} InsertSameTime(p: PostMeta, ps: seq<PostMeta>, time: string -> int, t: int)
    requires NewestFirst(ps, time)
    ensures SameTime(Insert(p, ps, time), time, t) ==
              SameTime(ps, time, t) + if time(p.frontmatter.date) == t then [p] else []
    decreases |ps|
  {
    if ps == [] {
      assert SameTime([p], time, t) == (if time(p.frontmatter.date) == t then [p] else []) + SameTime([], time, t);
    } else if time(p.frontmatter.date) > time(ps[0].frontmatter.date) {
      InsertAtHeadSameTime(p, ps, time, t);
    } else {
      TailNewestFirst(ps, time);
      InsertSameTime(p, ps[1..], time, t);
      InsertBehindSameTime(p, ps, time, t);
    }
  }

  /** A post newer than the head of a newest-first list is newer than all of it. */
  lemma InsertAtHeadSameTime(p: PostMeta, ps: seq<PostMeta>, time: string -> int, t: int)
    requires NewestFirst(ps, time) && ps != [] && time(p.frontmatter.date) > time(ps[0].frontmatter.date)
    ensures SameTime(Insert(p, ps, time), time, t) ==
              SameTime(ps, time, t) + if time(p.frontmatter.date) == t then [p] else []
  {
    assert Insert(p, ps, time) == [p] + ps;
    assert ([p] + ps)[1..] == ps;
    if time(p.frontmatter.date) == t {
      assert forall k :: 0 <= k < |ps| ==> time(ps[k].frontmatter.date) < t;
      SameTimeNone(ps, time, t);
    }
  }

  /** Insertion behind the head keeps the head in front. */
  lemma InsertBehindSameTime(p: PostMeta, ps: seq<PostMeta>, time: string -> int, t: int)
    requires ps != [] && time(p.frontmatter.date) <= time(ps[0].frontmatter.date)
    requires SameTime(Insert(p, ps[1..], time), time, t) ==
               SameTime(ps[1..], time, t) + if time(p.frontmatter.date) == t then [p] else []
    ensures SameTime(Insert(p, ps, time), time, t) ==
              SameTime(ps, time, t) + if time(p.frontmatter.date) == t then [p] else []
  {
    var rest := Insert(p, ps[1..], time);
    var head: seq<PostMeta> := if time(ps[0].frontmatter.date) == t then [ps[0]] else [];
    var mine: seq<PostMeta> := if time(p.frontmatter.date) == t then [p] else [];
    assert Insert(p, ps, time) == [ps[0]] + rest;
    assert ([ps[0]] + rest)[0] == ps[0] && ([ps[0]] + rest)[1..] == rest;
    assert SameTime([ps[0]] + rest, time, t) == head + SameTime(rest, time, t);
    assert SameTime(ps, time, t) == head + SameTime(ps[1..], time, t);
    assert head + (SameTime(ps[1..], time, t) + mine) == (head + SameTime(ps[1..], time, t)) + mine;
  }

  /** The sort is stable: posts of the same date keep their order. */
  lemma {:induction false} SortByDateStable(ps: seq<PostMeta>, time: string -> int, t: int)
    ensures SameTime(SortByDate(ps, time), time, t) == SameTime(ps, time, t)
    decreases |ps|
  {
    if ps != [] {
      SortByDateStable(ps[..|ps| - 1], time, t);
      StableStep(ps, time, t);
    }
  }

  /** Sorting one more post keeps the order of each date's posts, given it was kept before. */
  lemma StableStep(ps: seq<PostMeta>, time: string -> int, t: int)
    requires ps != []
    requires SameTime(SortByDate(ps[..|ps| - 1], time), time, t) == SameTime(ps[..|ps| - 1], time, t)
    ensures SameTime(SortByDate(ps, time), time, t) == SameTime(ps, time, t)
  {
    SortByDateLast(ps, time);
    InsertSameTime(ps[|ps| - 1], SortByDate(ps[..|ps| - 1], time), time, t);
    SameTimeSnoc(ps, time, t);
  }

  /** The sort of a non-empty list inserts its last post into the sort of the others. */
  lemma SortByDateLast(ps: seq<PostMeta>, time: string -> int)
    requires ps != []
    ensures SortByDate(ps, time) == Insert(ps[|ps| - 1], SortByDate(ps[..|ps| - 1], time), time)
  {
  }

  /** The posts of time `t` in a non-empty list: those before the last, then the last if it
      has that time. */
  lemma SameTimeSnoc(ps: seq<PostMeta>, time: string -> int, t: int)
    requires ps != []
    ensures SameTime(ps, time, t) ==
              SameTime(ps[..|ps| - 1], time, t) + if time(ps[|ps| - 1].frontmatter.date) == t then [ps[|ps| - 1]] else []
  {
    var front, last := ps[..|ps| - 1], ps[|ps| - 1];
    SameTimeAppend(front, [last], time, t);
    assert SameTime([last], time, t) == (if time(last.frontmatter.date) == t then [last] else []) + SameTime([], time, t);
    assert ps == front + [last];
  }

  /** The post of each module, in module order. */
  function Metas(modules: seq<PostModule>): (r: seq<PostMeta>)
    ensures |r| == |modules|
    ensures forall i :: 0 <= i < |modules| ==> r[i] == MetaOf(modules[i])
  {
    seq(|modules|, i requires 0 <= i < |modules| => MetaOf(modules[i]))
  }

  /** `getAllPosts`: one post per module, newest first. */
  function AllPosts(modules: seq<PostModule>, time: string -> int): (r: seq<PostMeta>)
    ensures NewestFirst(r, time)
    ensures multiset(r) == multiset(Metas(modules))
  {
    SortByDate(Metas(modules), time)
  }

  /** Every listed post is the post of some module, under the slug of that module's path
      unless its frontmatter names another. */
  lemma AllPostsFromModules(modules: seq<PostModule>, time: string -> int, p: PostMeta)
    requires p in AllPosts(modules, time)
    ensures exists i :: 0 <= i < |modules| && p == MetaOf(modules[i]) && p.frontmatter == modules[i].frontmatter
              && (modules[i].frontmatter.slug.None? ==> p.slug == SlugFromPath(modules[i].path))
  {
    var metas := Metas(modules);
    assert p in metas by {
      assert p in multiset(AllPosts(modules, time));
    }
    var i :| 0 <= i < |metas| && metas[i] == p;
    assert p == MetaOf(modules[i]);
  }

  /** Every module is listed. */
  lemma AllPostsComplete(modules: seq<PostModule>, time: string -> int, i: nat)
    requires i < |modules|
    ensures MetaOf(modules[i]) in AllPosts(modules, time)
  {
    var metas := Metas(modules);
    assert MetaOf(modules[i]) in multiset(metas) by {
      assert metas[i] == MetaOf(modules[i]);
    }
    assert MetaOf(modules[i]) in multiset(AllPosts(modules, time));
  }

  // ---------------------------------------------------------------------------
  // lookup

  /** The index of the first module whose path yields `slug`, or the number of modules. */
  function FirstWithSlug(modules: seq<PostModule>, slug: string): (k: nat)
    ensures k <= |modules|
    ensures forall j :: 0 <= j < k ==> SlugFromPath(modules[j].path) != slug
    ensures k < |modules| ==> SlugFromPath(modules[k].path) == slug
    decreases |modules|
  {
    if modules == [] || SlugFromPath(modules[0].path) == slug then 0
    else
      var tail := modules[1..];
      var k := FirstWithSlug(tail, slug);
      assert forall j :: 0 <= j < k ==> modules[j + 1] == tail[j];
      1 + k
  }

  /** `getPostBySlug`: the post of the first module whose path yields `slug`, or `null`. The
      match is on the path alone, so the post found reads back `slug` unless its frontmatter
      overrides it. */
  function PostBySlug(modules: seq<PostModule>, slug: string): (r: Option<PostMeta>)
    ensures r.None? <==> forall i :: 0 <= i < |modules| ==> SlugFromPath(modules[i].path) != slug
    ensures r.Some? ==>
              (r.value.frontmatter.slug.None? ==> r.value.slug == slug) &&
              exists i :: 0 <= i < |modules| && r.value == MetaOf(modules[i]) &&
                SlugFromPath(modules[i].path) == slug &&
                forall j :: 0 <= j < i ==> SlugFromPath(modules[j].path) != slug
  {
    var k := FirstWithSlug(modules, slug);
    if k < |modules| then Some(MetaOf(modules[k])) else None
  }

  /** A post written at `content/blog/<slug>.mdx` is listed by the glob under its key, and
      is the post found under its slug; without a `slug` of its own in the frontmatter it
      reads back that slug. */
  lemma WrittenPostFound(modules: seq<PostModule>, slug: string, i: nat)
    requires GlobModules(modules)
    requires i < |modules| && '/' !in slug && modules[i].path == GlobKey("content/blog/" + slug + ".mdx")
    ensures PostBySlug(modules, slug) == Some(MetaOf(modules[i]))
    ensures modules[i].frontmatter.slug.None? ==> PostBySlug(modules, slug).value.slug == slug
  {
    PostGlobKey(slug);
    SlugFromWrittenPath("../../content/blog/", slug);
    var k := FirstWithSlug(modules, slug);
    GlobSlugsDistinct(modules, k, i);
  }

  /** Two modules of the glob with the same slug are the same module. */
  lemma GlobSlugsDistinct(modules: seq<PostModule>, j: nat, k: nat)
    requires GlobModules(modules) && j < |modules| && k < |modules|
    requires SlugFromPath(modules[j].path) == SlugFromPath(modules[k].path)
    ensures j == k
  {
    var slug := SlugFromPath(modules[j].path);
    assert modules[j].path == GlobKey("content/blog/" + slug + ".mdx");
    assert modules[k].path == GlobKey("content/blog/" + slug + ".mdx");
  }

  /** A frontmatter `slug` that differs from the file name is listed under a slug the lookup
      does not find: the lookup matches file names only. */
  lemma OverriddenSlugNotFound(modules: seq<PostModule>, time: string -> int, i: nat)
    requires i < |modules| && modules[i].frontmatter.slug.Some?
    requires forall j :: 0 <= j < |modules| ==> SlugFromPath(modules[j].path) != modules[i].frontmatter.slug.value
    ensures exists p :: p in AllPosts(modules, time) && p.slug == modules[i].frontmatter.slug.value
    ensures PostBySlug(modules, modules[i].frontmatter.slug.value).None?
  {
    AllPostsComplete(modules, time, i);
  }
}
