// The post feed of src/pages/Post.jsx: the Post, Category and Comment records,
// PostController and CategoryController over their collections, ModalManager,
// the page component's feed assembly and category toggle, and the guard and
// defaults of the post-creation form.

module Feed {
  import opened JsArray
  import opened JsString

  // ---------------------------------------------------------------------------
  // Records

  /**
   * The value of a post's `categoryId`: a number, `null`, or the NaN that
   * `parseInt` yields for an option value without digits.
   */
  datatype CategoryRef = Null | Num(n: int) | NaN

  /** `===` between category references: NaN equals nothing, not even NaN. */
  predicate SameRef(a: CategoryRef, b: CategoryRef)
  {
    (a.Null? && b.Null?) || (a.Num? && b.Num? && a.n == b.n)
  }

  /** Timestamps are the millisecond value of the `Date` taken at construction. */
  datatype Comment = Comment(id: int, postId: int, content: string, author: string, timestamp: int)

  datatype Post = Post(
    id: int,
    content: string,
    imageUrl: string,
    categoryId: CategoryRef,
    likes: int,
    comments: seq<Comment>,
    timestamp: int)

  datatype Category = Category(id: int, name: string, description: string, icon: string)

  /** The `postData` argument of `createPost`. */
  datatype PostData = PostData(content: string, imageUrl: string, categoryId: CategoryRef)

  /** The `categoryData` argument of `createCategory`. */
  datatype CategoryData = CategoryData(name: string, description: string, icon: string)

  /** An `updates` object for a post: each field it supplies, `None` where it has no such key. */
  datatype PostPatch = PostPatch(
    id: Option<int>,
    content: Option<string>,
    imageUrl: Option<string>,
    categoryId: Option<CategoryRef>,
    likes: Option<int>,
    comments: Option<seq<Comment>>,
    timestamp: Option<int>)

  /** An `updates` object for a category. */
  datatype CategoryPatch = CategoryPatch(
    id: Option<int>,
    name: Option<string>,
    description: Option<string>,
    icon: Option<string>)

  const NoPostUpdates := PostPatch(None, None, None, None, None, None, None)

  /** One key of an object spread: the supplied value wins, otherwise the old one stays. */
  function Pick<T>(kept: T, supplied: Option<T>): T
  {
    match supplied
    case Some(v) => v
    case None => kept
  }

  /** `{ ...p, ...u }` for a post. */
  function MergePost(p: Post, u: PostPatch): Post
  {
    Post(Pick(p.id, u.id), Pick(p.content, u.content), Pick(p.imageUrl, u.imageUrl),
         Pick(p.categoryId, u.categoryId), Pick(p.likes, u.likes),
         Pick(p.comments, u.comments), Pick(p.timestamp, u.timestamp))
  }

  /** `{ ...c, ...u }` for a category. */
  function MergeCategory(c: Category, u: CategoryPatch): Category
  {
    Category(Pick(c.id, u.id), Pick(c.name, u.name), Pick(c.description, u.description),
             Pick(c.icon, u.icon))
  }

  /** `{ ...u, ...v }`: the patch that applying `u` and then `v` amounts to. */
  function ThenPost(u: PostPatch, v: PostPatch): PostPatch
  {
    PostPatch(
      if v.id.Some? then v.id else u.id,
      if v.content.Some? then v.content else u.content,
      if v.imageUrl.Some? then v.imageUrl else u.imageUrl,
      if v.categoryId.Some? then v.categoryId else u.categoryId,
      if v.likes.Some? then v.likes else u.likes,
      if v.comments.Some? then v.comments else u.comments,
      if v.timestamp.Some? then v.timestamp else u.timestamp)
  }

  /** An empty update keeps the post; a repeated update is a single one; two updates merge into one. */
  lemma MergePostLaws(p: Post, u: PostPatch, v: PostPatch)
    ensures MergePost(p, NoPostUpdates) == p
    ensures MergePost(MergePost(p, u), u) == MergePost(p, u)
    ensures MergePost(MergePost(p, u), v) == MergePost(p, ThenPost(u, v))
  {
  }

  /** The post `createPost` builds: no likes, no comments, stamped with the clock. */
  function NewPost(id: int, data: PostData, now: int): (p: Post)
    ensures p.likes == 0 && p.comments == []
  {
    Post(id, data.content, data.imageUrl, data.categoryId, 0, [], now)
  }

  const Placeholder := "/api/placeholder/400/400"

  /** The two posts a new PostController starts with, every `Date` read at instant `now`. */
  function SeedPosts(now: int): seq<Post>
  {
    [ Post(1, "Beautiful sunset at the beach!", Placeholder, Num(1), 42,
           [ Comment(1, 1, "Amazing shot!", "John", now),
             Comment(2, 1, "Love this!", "Sarah", now) ], now),
      Post(2, "Coffee and code \U{1F4BB}\U{2615}", Placeholder, Num(2), 18, [], now) ]
  }

  /** The four categories a new CategoryController starts with. */
  function SeedCategories(): seq<Category>
  {
    [ Category(1, "Nature", "Photos of nature and outdoors", "\U{1F33F}"),
      Category(2, "Tech", "Technology and programming", "\U{1F4BB}"),
      Category(3, "Food", "Delicious food and recipes", "\U{1F355}"),
      Category(4, "Travel", "Travel experiences and places", "\U{2708}\U{FE0F}") ]
  }

  // ---------------------------------------------------------------------------
  // The callbacks handed to find, findIndex and filter

  function PostHasId(id: int): Post -> bool
  {
    (q: Post) => q.id == id
  }

  function PostLacksId(id: int): Post -> bool
  {
    (q: Post) => q.id != id
  }

  function InCategory(c: CategoryRef): Post -> bool
  {
    (q: Post) => SameRef(q.categoryId, c)
  }

  function HasTimestamp(t: int): Post -> bool
  {
    (q: Post) => q.timestamp == t
  }

  function CategoryHasId(id: int): Category -> bool
  {
    (c: Category) => c.id == id
  }

  function CategoryLacksId(id: int): Category -> bool
  {
    (c: Category) => c.id != id
  }

  // ---------------------------------------------------------------------------
  // Deleting and filtering

  /** `deletePost`: every post with the id goes, the others stay in order, and a second delete changes nothing. */
  lemma DeletePostSpec(s: seq<Post>, id: int)
    ensures var r := Filter(s, PostLacksId(id));
      && (forall i :: 0 <= i < |r| ==> r[i].id != id)
      && (forall j :: 0 <= j < |s| && s[j].id != id ==> s[j] in r)
      && (forall j :: 0 <= j < |s| && s[j].id != id ==> multiset(r)[s[j]] == multiset(s)[s[j]])
      && IsSubsequence(r, s)
      && Filter(r, PostLacksId(id)) == r
  {
    FilterIsSubsequence(s, PostLacksId(id));
    FilterIdempotent(s, PostLacksId(id));
  }

  /** `deleteCategory`: every category with the id goes, the others stay in order, and a second delete changes nothing. */
  lemma DeleteCategorySpec(s: seq<Category>, id: int)
    ensures var r := Filter(s, CategoryLacksId(id));
      && (forall i :: 0 <= i < |r| ==> r[i].id != id)
      && (forall j :: 0 <= j < |s| && s[j].id != id ==> s[j] in r)
      && (forall j :: 0 <= j < |s| && s[j].id != id ==> multiset(r)[s[j]] == multiset(s)[s[j]])
      && IsSubsequence(r, s)
      && Filter(r, CategoryLacksId(id)) == r
  {
    FilterIsSubsequence(s, CategoryLacksId(id));
    FilterIdempotent(s, CategoryLacksId(id));
  }

  /**
   * `getPostsByCategory(c)`: exactly the posts whose category is `=== c`, in stored
   * order; nothing for NaN, whether or not `c` names a category.
   */
  lemma PostsByCategorySpec(s: seq<Post>, c: CategoryRef)
    ensures var r := Filter(s, InCategory(c));
      && (forall i :: 0 <= i < |r| ==> SameRef(r[i].categoryId, c))
      && (forall j :: 0 <= j < |s| && SameRef(s[j].categoryId, c) ==> s[j] in r)
      && (forall j :: 0 <= j < |s| && SameRef(s[j].categoryId, c) ==> multiset(r)[s[j]] == multiset(s)[s[j]])
      && IsSubsequence(r, s)
      && (c.NaN? ==> r == [])
  {
    FilterIsSubsequence(s, InCategory(c));
  }

  // ---------------------------------------------------------------------------
  // Likes

  /** The post at `i` with one more like. */
  function LikeAt(s: seq<Post>, i: nat): (r: seq<Post>)
    requires i < |s|
    ensures |r| == |s|
  {
    s[i := s[i].(likes := s[i].likes + 1)]
  }

  /** The likes of all posts together. */
  function TotalLikes(s: seq<Post>): int
  {
    if |s| == 0 then 0 else s[0].likes + TotalLikes(s[1..])
  }

  /** A like adds exactly one to the feed's like count: likes never go down under `likePost`. */
  lemma {:induction false} LikeAddsOne(s: seq<Post>, i: nat)
    requires i < |s|
    ensures TotalLikes(LikeAt(s, i)) == TotalLikes(s) + 1
    decreases |s|
  {
    if i == 0 {
      assert LikeAt(s, i)[1..] == s[1..];
    } else {
      assert LikeAt(s, i)[1..] == LikeAt(s[1..], i - 1);
      LikeAddsOne(s[1..], i - 1);
    }
  }

  /** Liking a post and then deleting its id leaves what deleting alone leaves. */
  lemma {:induction false} LikeThenDelete(s: seq<Post>, i: nat)
    requires i < |s|
    ensures Filter(LikeAt(s, i), PostLacksId(s[i].id)) == Filter(s, PostLacksId(s[i].id))
    decreases |s|
  {
    var id := s[i].id;
    if i == 0 {
      assert LikeAt(s, i)[1..] == s[1..];
    } else {
      assert LikeAt(s, i)[1..] == LikeAt(s[1..], i - 1);
      LikeThenDelete(s[1..], i - 1);
    }
  }

  // ---------------------------------------------------------------------------
  // Feed order: `posts.sort((a, b) => b.timestamp - a.timestamp)`, a stable sort

  /** Newest first: timestamps never increase along the sequence. */
  ghost predicate NewestFirst(s: seq<Post>)
  {
    forall i, j :: 0 <= i < j < |s| ==> s[i].timestamp >= s[j].timestamp
  }

  /** Posts with equal timestamps appear in `r` in the order they have in `s`. */
  ghost predicate TiesInOrder(r: seq<Post>, s: seq<Post>)
  {
    forall t :: Filter(r, HasTimestamp(t)) == Filter(s, HasTimestamp(t))
  }

  /** Places `p` before the first post that is not newer than it. */
  function InsertByTime(p: Post, s: seq<Post>): (r: seq<Post>)
    ensures |r| == |s| + 1
    ensures forall x :: x in r <==> x == p || x in s
    ensures multiset(r) == multiset(s) + multiset{p}
  {
    if |s| == 0 || s[0].timestamp <= p.timestamp then [p] + s
    else
      assert s == [s[0]] + s[1..];
      [s[0]] + InsertByTime(p, s[1..])
  }

  /** The order `getFeed` leaves the posts in. */
  function FeedOrder(s: seq<Post>): (r: seq<Post>)
    ensures |r| == |s| && multiset(r) == multiset(s)
  {
    if |s| == 0 then []
    else
      assert s == [s[0]] + s[1..];
      InsertByTime(s[0], FeedOrder(s[1..]))
  }

  lemma {:induction false} InsertKeepsNewestFirst(p: Post, s: seq<Post>)
    requires NewestFirst(s)
    ensures NewestFirst(InsertByTime(p, s))
    decreases |s|
  {
    if |s| > 0 && s[0].timestamp > p.timestamp {
      InsertKeepsNewestFirst(p, s[1..]);
      var rest := InsertByTime(p, s[1..]);
      forall j | 0 <= j < |rest| ensures s[0].timestamp >= rest[j].timestamp {
        assert rest[j] in rest;
        if rest[j] != p {
          var k :| 0 <= k < |s[1..]| && s[1..][k] == rest[j];
          assert s[k + 1] == rest[j];
        }
      }
    }
  }

  lemma {:induction false} InsertKeepsTies(p: Post, s: seq<Post>, t: int)
    ensures Filter(InsertByTime(p, s), HasTimestamp(t))
         == if p.timestamp == t then [p] + Filter(s, HasTimestamp(t)) else Filter(s, HasTimestamp(t))
    decreases |s|
  {
    if |s| == 0 || s[0].timestamp <= p.timestamp {
      FilterCons(p, s, HasTimestamp(t));
    } else {
      var rest := InsertByTime(p, s[1..]);
      InsertKeepsTies(p, s[1..], t);
      FilterCons(s[0], rest, HasTimestamp(t));
      assert InsertByTime(p, s) == [s[0]] + rest;
      assert Filter(s, HasTimestamp(t))
          == if s[0].timestamp == t then [s[0]] + Filter(s[1..], HasTimestamp(t)) else Filter(s[1..], HasTimestamp(t));
    }
  }

  lemma {:induction false} FeedOrderNewestFirst(s: seq<Post>)
    ensures NewestFirst(FeedOrder(s))
    decreases |s|
  {
    if |s| > 0 {
      FeedOrderNewestFirst(s[1..]);
      InsertKeepsNewestFirst(s[0], FeedOrder(s[1..]));
    }
  }

  /** One insertion step keeps, for every timestamp, the tied posts in order. */
  lemma InsertStepKeepsTies(sorted: seq<Post>, s: seq<Post>, t: int)
    requires |s| > 0 && Filter(sorted, HasTimestamp(t)) == Filter(s[1..], HasTimestamp(t))
    ensures Filter(InsertByTime(s[0], sorted), HasTimestamp(t)) == Filter(s, HasTimestamp(t))
  {
    InsertKeepsTies(s[0], sorted, t);
  }

  lemma {:induction false} FeedOrderKeepsTies(s: seq<Post>, t: int)
    ensures Filter(FeedOrder(s), HasTimestamp(t)) == Filter(s, HasTimestamp(t))
    decreases |s|
  {
    if |s| > 0 {
      FeedOrderKeepsTies(s[1..], t);
      InsertStepKeepsTies(FeedOrder(s[1..]), s, t);
    }
  }

  /**
   * `getFeed` sorts newest first, keeps every post (a permutation), and keeps
   * posts with equal timestamps in their stored order (the sort is stable).
   */
  lemma FeedOrderSpec(s: seq<Post>)
    ensures NewestFirst(FeedOrder(s))
    ensures multiset(FeedOrder(s)) == multiset(s)
    ensures TiesInOrder(FeedOrder(s), s)
  {
    FeedOrderNewestFirst(s);
    forall t ensures Filter(FeedOrder(s), HasTimestamp(t)) == Filter(s, HasTimestamp(t)) {
      FeedOrderKeepsTies(s, t);
    }
  }

  /** Whatever is in a tied sequence is in its partner. */
  lemma TiedMember(a: seq<Post>, b: seq<Post>, j: nat)
    requires TiesInOrder(a, b) && j < |a|
    ensures a[j] in b
  {
    var t := a[j].timestamp;
    assert a[j] in Filter(a, HasTimestamp(t));
    assert a[j] in Filter(b, HasTimestamp(t));
  }

  /** The head of a newest-first sequence is at least as new as any of its posts. */
  lemma HeadIsNewest(b: seq<Post>, x: Post)
    requires NewestFirst(b) && x in b
    ensures b[0].timestamp >= x.timestamp
  {
    var j :| 0 <= j < |b| && b[j] == x;
    if j > 0 {
      assert b[0].timestamp >= b[j].timestamp;
    }
  }

  /** Two newest-first sequences with the same ties start with the same post. */
  lemma SameHead(a: seq<Post>, b: seq<Post>)
    requires |a| > 0 && |b| > 0
    requires NewestFirst(a) && NewestFirst(b) && TiesInOrder(a, b)
    ensures a[0] == b[0]
  {
    TiedMember(a, b, 0);
    HeadIsNewest(b, a[0]);
    assert TiesInOrder(b, a);
    TiedMember(b, a, 0);
    HeadIsNewest(a, b[0]);
    var k := a[0].timestamp;
    assert Filter(a, HasTimestamp(k)) == [a[0]] + Filter(a[1..], HasTimestamp(k));
    assert Filter(b, HasTimestamp(k)) == [b[0]] + Filter(b[1..], HasTimestamp(k));
  }

  /** Dropping a common head keeps two sequences tied. */
  lemma SameTails(a: seq<Post>, b: seq<Post>)
    requires |a| > 0 && |b| > 0 && a[0] == b[0] && TiesInOrder(a, b)
    ensures TiesInOrder(a[1..], b[1..])
  {
    forall t ensures Filter(a[1..], HasTimestamp(t)) == Filter(b[1..], HasTimestamp(t)) {
      var fa, fb := Filter(a, HasTimestamp(t)), Filter(b, HasTimestamp(t));
      assert fa == fb;
      if a[0].timestamp == t {
        assert fa[1..] == Filter(a[1..], HasTimestamp(t));
        assert fb[1..] == Filter(b[1..], HasTimestamp(t));
      }
    }
  }

  lemma {:induction false} NewestFirstStableUnique(a: seq<Post>, b: seq<Post>)
    requires |a| == |b|
    requires NewestFirst(a) && NewestFirst(b) && TiesInOrder(a, b)
    ensures a == b
    decreases |a|
  {
    if |a| > 0 {
      SameHead(a, b);
      SameTails(a, b);
      NewestFirstStableUnique(a[1..], b[1..]);
      assert a == [a[0]] + a[1..] && b == [b[0]] + b[1..];
    }
  }

  /**
   * The feed order is the only newest-first permutation that keeps ties in
   * stored order: it is exactly what a stable descending sort must return.
   */
  lemma FeedOrderIsTheStableSort(s: seq<Post>, r: seq<Post>)
    requires NewestFirst(r) && multiset(r) == multiset(s) && TiesInOrder(r, s)
    ensures r == FeedOrder(s)
  {
    FeedOrderSpec(s);
    assert |r| == |multiset(r)| == |multiset(s)| == |s| == |multiset(FeedOrder(s))| == |FeedOrder(s)|;
    NewestFirstStableUnique(r, FeedOrder(s));
  }

  // ---------------------------------------------------------------------------
  // Controllers

  class PostController {
    var posts: seq<Post>

    constructor (now: int)
      ensures posts == SeedPosts(now)
    {
      posts := SeedPosts(now);
    }

    /** `createPost`: the new post goes in front, every older post moves back one place. */
    method CreatePost(data: PostData, id: int, now: int) returns (created: Post)
      modifies this
      ensures created == NewPost(id, data, now)
      ensures posts == [created] + old(posts)
      ensures |posts| == |old(posts)| + 1 && posts[0] == created
      ensures forall i :: 0 <= i < |old(posts)| ==> posts[i + 1] == old(posts)[i]
    {
      created := NewPost(id, data, now);
      posts := [created] + posts;
    }

    /** `getPostById`: the first post with the id, if any. */
    function GetPostById(id: int): (r: Option<Post>)
      reads this
      ensures r.Some? ==> r.value in posts && r.value.id == id
      ensures r.Some? ==> exists i :: 0 <= i < |posts| && posts[i] == r.value && forall j :: 0 <= j < i ==> posts[j].id != id
      ensures r.None? <==> forall i :: 0 <= i < |posts| ==> posts[i].id != id
    {
      Find(posts, PostHasId(id))
    }

    /**
     * `updatePost`: the first post with the id becomes the merge of it and the
     * updates, at the same place; without such a post nothing changes.
     */
    method UpdatePost(id: int, updates: PostPatch) returns (r: Option<Post>)
      modifies this
      ensures |posts| == |old(posts)|
      ensures match FindIndex(old(posts), PostHasId(id))
        case None => r == None && posts == old(posts)
        case Some(i) => posts == old(posts)[i := MergePost(old(posts)[i], updates)] && r == Some(posts[i])
    {
      match FindIndex(posts, PostHasId(id))
      case None =>
        r := None;
      case Some(i) =>
        posts := posts[i := MergePost(posts[i], updates)];
        r := Some(posts[i]);
    }

    /** `deletePost`: keeps the posts whose id differs (see DeletePostSpec). */
    method DeletePost(id: int)
      modifies this
      ensures posts == Filter(old(posts), PostLacksId(id))
      ensures forall i :: 0 <= i < |posts| ==> posts[i].id != id
    {
      posts := Filter(posts, PostLacksId(id));
    }

    /** `getFeed`: sorts the stored posts in place, newest first and stably, and returns them. */
    method GetFeed() returns (feed: seq<Post>)
      modifies this
      ensures posts == FeedOrder(old(posts)) && feed == posts
      ensures NewestFirst(feed) && multiset(feed) == multiset(old(posts))
      ensures TiesInOrder(feed, old(posts))
    {
      FeedOrderSpec(posts);
      posts := FeedOrder(posts);
      feed := posts;
    }

    /** `getPostsByCategory`: the stored posts in category `c`, in stored order. */
    function GetPostsByCategory(c: CategoryRef): (r: seq<Post>)
      reads this
      ensures forall i :: 0 <= i < |r| ==> r[i] in posts && SameRef(r[i].categoryId, c)
      ensures forall j :: 0 <= j < |posts| && SameRef(posts[j].categoryId, c) ==> posts[j] in r
    {
      Filter(posts, InCategory(c))
    }

    /** `likePost`: the first post with the id gets one more like; without one nothing changes. */
    method LikePost(id: int) returns (r: Option<Post>)
      modifies this
      ensures match FindIndex(old(posts), PostHasId(id))
        case None => r == None && posts == old(posts)
        case Some(i) =>
          && posts == LikeAt(old(posts), i)
          && posts[i].likes == old(posts)[i].likes + 1
          && r == Some(posts[i])
    {
      match FindIndex(posts, PostHasId(id))
      case None =>
        r := None;
      case Some(i) =>
        posts := LikeAt(posts, i);
        r := Some(posts[i]);
    }
  }

  class CategoryController {
    var categories: seq<Category>

    constructor ()
      ensures categories == SeedCategories()
    {
      categories := SeedCategories();
    }

    /** `createCategory`: the new category goes at the end. */
    method CreateCategory(data: CategoryData, id: int) returns (created: Category)
      modifies this
      ensures created == Category(id, data.name, data.description, data.icon)
      ensures categories == old(categories) + [created]
    {
      created := Category(id, data.name, data.description, data.icon);
      categories := categories + [created];
    }

    /** `getAllCategories`: the stored categories, in insertion order. */
    function GetAllCategories(): (r: seq<Category>)
      reads this
      ensures r == categories
    {
      categories
    }

    /** `getCategoryById`: the first category with the id, if any. */
    function GetCategoryById(id: int): (r: Option<Category>)
      reads this
      ensures r.Some? ==> r.value in categories && r.value.id == id
      ensures r.Some? ==>
        exists i :: 0 <= i < |categories| && categories[i] == r.value && forall j :: 0 <= j < i ==> categories[j].id != id
      ensures r.None? <==> forall i :: 0 <= i < |categories| ==> categories[i].id != id
    {
      Find(categories, CategoryHasId(id))
    }

    /** `updateCategory`: like `updatePost`, on the first category with the id. */
    method UpdateCategory(id: int, updates: CategoryPatch) returns (r: Option<Category>)
      modifies this
      ensures |categories| == |old(categories)|
      ensures match FindIndex(old(categories), CategoryHasId(id))
        case None => r == None && categories == old(categories)
        case Some(i) =>
          categories == old(categories)[i := MergeCategory(old(categories)[i], updates)]
          && r == Some(categories[i])
    {
      match FindIndex(categories, CategoryHasId(id))
      case None =>
        r := None;
      case Some(i) =>
        categories := categories[i := MergeCategory(categories[i], updates)];
        r := Some(categories[i]);
    }

    /** `deleteCategory`: keeps the categories whose id differs (see DeleteCategorySpec). */
    method DeleteCategory(id: int)
      modifies this
      ensures categories == Filter(old(categories), CategoryLacksId(id))
      ensures forall i :: 0 <= i < |categories| ==> categories[i].id != id
    {
      categories := Filter(categories, CategoryLacksId(id));
    }
  }

  // ---------------------------------------------------------------------------
  // ModalManager

  /** `document.body.style.overflow`: empty on page load, then `'hidden'` or `'auto'`. */
  datatype Overflow = Unset | Hidden | Auto

  datatype ModalOp = Open(modalId: string) | Close(modalId: string) | CloseAll

  /** The open modal ids together with the page's overflow style. */
  datatype Modals = Modals(active: set<string>, overflow: Overflow)

  /** What `openModal`, `closeModal` and `closeAllModals` do. */
  function Apply(m: Modals, op: ModalOp): Modals
  {
    match op
    case Open(id) => Modals(m.active + {id}, Hidden)
    case Close(id) =>
      var rest := m.active - {id};
      Modals(rest, if |rest| == 0 then Auto else m.overflow)
    case CloseAll => Modals({}, Auto)
  }

  /** The effect of a sequence of operations, first to last. */
  function Run(m: Modals, ops: seq<ModalOp>): Modals
    decreases |ops|
  {
    if |ops| == 0 then m else Run(Apply(m, ops[0]), ops[1..])
  }

  /** The page scrolls exactly when no modal is open. */
  ghost predicate InSync(m: Modals)
  {
    m.overflow == Hidden <==> m.active != {}
  }

  /**
   * What a manager can promise whatever style it inherits: while a modal is
   * open the page does not scroll. A new manager has no open modal, so it holds
   * from construction even when an earlier visit left the style `'hidden'`.
   */
  ghost predicate OpenMeansHidden(m: Modals)
  {
    m.active != {} ==> m.overflow == Hidden
  }

  /** Once in step, overflow stays hidden exactly when a modal is open, whatever operations follow. */
  lemma {:induction false} RunKeepsInSync(m: Modals, ops: seq<ModalOp>)
    requires InSync(m)
    ensures InSync(Run(m, ops))
    decreases |ops|
  {
    if |ops| > 0 {
      var next := Apply(m, ops[0]);
      assert InSync(next);
      RunKeepsInSync(next, ops[1..]);
    }
  }

  /** Every operation keeps an open modal hidden, and brings the style in step with the open set. */
  lemma OpSyncs(m: Modals, op: ModalOp)
    requires OpenMeansHidden(m)
    ensures InSync(Apply(m, op))
  {
  }

  /**
   * A manager over an inherited style is out of step at first (no modal open,
   * style `'hidden'`), but after its first operation it is in step for good.
   */
  lemma {:induction false} RunSyncs(m: Modals, ops: seq<ModalOp>)
    requires OpenMeansHidden(m) && |ops| > 0
    ensures InSync(Run(m, ops))
  {
    OpSyncs(m, ops[0]);
    RunKeepsInSync(Apply(m, ops[0]), ops[1..]);
  }

  /** Opening a modal twice is opening it once; closing all leaves nothing open. */
  lemma ModalLaws(m: Modals, id: string)
    ensures Apply(Apply(m, Open(id)), Open(id)) == Apply(m, Open(id))
    ensures Apply(m, CloseAll).active == {}
    ensures id in Apply(m, Open(id)).active && id !in Apply(m, Close(id)).active
  {
  }

  /**
   * `document.body.style`: one per document, written by every manager on the
   * page and kept when the page component unmounts.
   */
  class PageStyle {
    var overflow: Overflow
  }

  class ModalManager {
    var activeModals: set<string>
    /** The document style the manager writes; it does not own it. */
    const page: PageStyle

    ghost function State(): Modals
      reads this, page
    {
      Modals(activeModals, page.overflow)
    }

    ghost predicate Valid()
      reads this, page
    {
      OpenMeansHidden(State())
    }

    /** A new manager has no open modal and leaves the style as it finds it. */
    constructor (page: PageStyle)
      ensures this.page == page && activeModals == {}
      ensures Valid()
    {
      activeModals := {};
      this.page := page;
    }

    /** `openModal`: adds the id and hides the page's scroll bar. */
    method OpenModal(modalId: string)
      requires Valid()
      modifies this, page
      ensures Valid() && InSync(State()) && State() == Apply(old(State()), Open(modalId))
      ensures IsModalOpen(modalId)
    {
      activeModals := activeModals + {modalId};
      page.overflow := Hidden;
    }

    /** `closeModal`: removes the id; the last one to close restores scrolling. */
    method CloseModal(modalId: string)
      requires Valid()
      modifies this, page
      ensures Valid() && InSync(State()) && State() == Apply(old(State()), Close(modalId))
      ensures !IsModalOpen(modalId)
    {
      activeModals := activeModals - {modalId};
      if |activeModals| == 0 {
        page.overflow := Auto;
      }
    }

    /** `isModalOpen`: whether the id is among the open modals. */
    function IsModalOpen(modalId: string): (r: bool)
      reads this
      ensures r <==> modalId in State().active
    {
      modalId in activeModals
    }

    /** `closeAllModals`: empties the set and restores scrolling. */
    method CloseAllModals()
      requires Valid()
      modifies this, page
      ensures Valid() && InSync(State()) && State() == Apply(old(State()), CloseAll)
      ensures activeModals == {}
    {
      activeModals := {};
      page.overflow := Auto;
    }
  }

  // ---------------------------------------------------------------------------
  // Feed assembly: the page component

  const CreatePostModal := "create-post"

  /** The category a post card shows: the first with the post's category id, or none when it dangles. */
  function CategoryOf(categories: seq<Category>, post: Post): (r: Option<Category>)
    ensures r.Some? ==> r.value in categories && SameRef(Num(r.value.id), post.categoryId)
    ensures r.Some? ==> exists i :: (0 <= i < |categories| && categories[i] == r.value
      && forall j :: 0 <= j < i ==> !SameRef(Num(categories[j].id), post.categoryId))
    ensures r.None? <==> forall i :: 0 <= i < |categories| ==> !SameRef(Num(categories[i].id), post.categoryId)
  {
    Find(categories, (c: Category) => SameRef(Num(c.id), post.categoryId))
  }

  /** After its category is deleted a post's card has no category, while the post itself stays. */
  lemma DanglingCategory(categories: seq<Category>, posts: seq<Post>, k: int, i: nat)
    requires i < |posts| && posts[i].categoryId == Num(k)
    ensures CategoryOf(Filter(categories, CategoryLacksId(k)), posts[i]).None?
    ensures posts[i] in FeedOrder(posts)
  {
    FeedOrderSpec(posts);
    assert posts[i] in multiset(posts);
  }

  /**
   * Choosing "All" (a null category) while another category is selected does not
   * show the feed: it shows the posts whose category is null, which for posts
   * filed through the form is none of them.
   */
  lemma AllAfterCategoryShowsOnlyUncategorised(s: seq<Post>)
    requires forall i :: 0 <= i < |s| ==> !s[i].categoryId.Null?
    ensures Filter(s, InCategory(Null)) == []
  {
  }

  class InstagramApp {
    /** The posts on screen. */
    var posts: seq<Post>
    var categories: seq<Category>
    var selectedCategory: CategoryRef
    var isCreateModalOpen: bool
    const modalManager: ModalManager
    const postController: PostController
    const categoryController: CategoryController

    ghost predicate Valid()
      reads this, modalManager, modalManager.page
    {
      modalManager.Valid()
    }

    /** A visit to the page, over the document's style as earlier visits left it. */
    constructor (now: int, page: PageStyle)
      ensures Valid() && fresh(modalManager) && fresh(postController) && fresh(categoryController)
      ensures posts == [] && categories == [] && selectedCategory == Null && !isCreateModalOpen
      ensures postController.posts == SeedPosts(now) && categoryController.categories == SeedCategories()
      ensures modalManager.page == page && modalManager.activeModals == {}
    {
      posts := [];
      categories := [];
      selectedCategory := Null;
      isCreateModalOpen := false;
      modalManager := new ModalManager(page);
      postController := new PostController(now);
      categoryController := new CategoryController();
    }

    /** The mount effect: show the sorted feed and load the categories. */
    method Mount()
      modifies this, postController
      ensures postController.posts == FeedOrder(old(postController.posts)) && posts == postController.posts
      ensures categories == categoryController.categories
      ensures selectedCategory == old(selectedCategory) && isCreateModalOpen == old(isCreateModalOpen)
    {
      posts := postController.GetFeed();
      categories := categoryController.GetAllCategories();
    }

    /** `handleCreatePost`: create the post, then show the re-sorted feed. */
    method HandleCreatePost(data: PostData, id: int, now: int)
      modifies this, postController
      ensures postController.posts == FeedOrder([NewPost(id, data, now)] + old(postController.posts))
      ensures posts == postController.posts
      ensures categories == old(categories) && selectedCategory == old(selectedCategory)
      ensures isCreateModalOpen == old(isCreateModalOpen)
    {
      var _ := postController.CreatePost(data, id, now);
      posts := postController.GetFeed();
    }

    /** `handleLikePost`: like the post, then show the re-sorted feed. */
    method HandleLikePost(postId: int)
      modifies this, postController
      ensures var stored := old(postController.posts);
        postController.posts == FeedOrder(
          match FindIndex(stored, PostHasId(postId))
          case None => stored
          case Some(i) => LikeAt(stored, i))
      ensures posts == postController.posts
      ensures categories == old(categories) && selectedCategory == old(selectedCategory)
      ensures isCreateModalOpen == old(isCreateModalOpen)
    {
      var _ := postController.LikePost(postId);
      posts := postController.GetFeed();
    }

    /**
     * `handleCategoryFilter`: choosing the selected category again clears the
     * selection and shows the whole (re-sorted) feed; choosing another one
     * selects it and shows its posts in stored order.
     */
    method HandleCategoryFilter(c: CategoryRef)
      modifies this, postController
      ensures SameRef(old(selectedCategory), c) ==>
        && selectedCategory == Null
        && postController.posts == FeedOrder(old(postController.posts))
        && posts == postController.posts
      ensures !SameRef(old(selectedCategory), c) ==>
        && selectedCategory == c
        && postController.posts == old(postController.posts)
        && posts == Filter(postController.posts, InCategory(c))
      ensures categories == old(categories) && isCreateModalOpen == old(isCreateModalOpen)
    {
      if SameRef(selectedCategory, c) {
        selectedCategory := Null;
        posts := postController.GetFeed();
      } else {
        selectedCategory := c;
        posts := postController.GetPostsByCategory(c);
      }
    }

    /** `openCreateModal`: show the form and register it with the modal manager. */
    method OpenCreateModal()
      requires Valid()
      modifies this, modalManager, modalManager.page
      ensures Valid() && InSync(modalManager.State()) && isCreateModalOpen
      ensures modalManager.State() == Apply(old(modalManager.State()), Open(CreatePostModal))
      ensures posts == old(posts) && categories == old(categories) && selectedCategory == old(selectedCategory)
    {
      isCreateModalOpen := true;
      modalManager.OpenModal(CreatePostModal);
    }

    /** `closeCreateModal`: hide the form and unregister it. */
    method CloseCreateModal()
      requires Valid()
      modifies this, modalManager, modalManager.page
      ensures Valid() && InSync(modalManager.State()) && !isCreateModalOpen
      ensures modalManager.State() == Apply(old(modalManager.State()), Close(CreatePostModal))
      ensures posts == old(posts) && categories == old(categories) && selectedCategory == old(selectedCategory)
    {
      isCreateModalOpen := false;
      modalManager.CloseModal(CreatePostModal);
    }
  }

  // ---------------------------------------------------------------------------
  // The post-creation form

  /**
   * What `handleSubmit` passes to `onSubmit`: nothing unless a caption and a
   * category are filled in; an empty image URL becomes the placeholder and the
   * selected option value goes through `parseInt`.
   */
  function Submission(content: string, imageUrl: string, selectedCategory: string): (r: Option<PostData>)
    ensures r.None? <==> content == [] || selectedCategory == []
    ensures r.Some? ==> r.value.content == content && r.value.imageUrl != []
    ensures r.Some? && imageUrl != [] ==> r.value.imageUrl == imageUrl
    ensures r.Some? ==> !r.value.categoryId.Null?
  {
    if content == [] || selectedCategory == [] then None
    else
      var categoryId := match ParseInt(selectedCategory) case Some(n) => Num(n) case None => NaN;
      Some(PostData(content, if imageUrl == [] then Placeholder else imageUrl, categoryId))
  }

  /** Picking a category in the form files the post under exactly that category's id. */
  lemma SubmissionKeepsCategory(content: string, imageUrl: string, category: Category)
    requires content != []
    ensures var r := Submission(content, imageUrl, IntToString(category.id));
      r.Some? && r.value.categoryId == Num(category.id)
  {
    ParseIntOfIntToString(category.id);
  }

  class PostCreationModal {
    var content: string
    var imageUrl: string
    var selectedCategory: string
    var isSubmitting: bool

    constructor ()
      ensures content == [] && imageUrl == [] && selectedCategory == [] && !isSubmitting
    {
      content, imageUrl, selectedCategory, isSubmitting := [], [], [], false;
    }

    /** `handleSubmit` with `onSubmit = handleCreatePost` and `onClose = closeCreateModal`. */
    method HandleSubmit(app: InstagramApp, id: int, now: int)
      requires app.Valid()
      modifies this, app, app.postController, app.modalManager, app.modalManager.page
      ensures app.Valid()
      ensures Submission(old(content), old(imageUrl), old(selectedCategory)).None? ==>
        && unchanged(this) && unchanged(app) && unchanged(app.postController)
        && unchanged(app.modalManager) && unchanged(app.modalManager.page)
      ensures var r := Submission(old(content), old(imageUrl), old(selectedCategory));
        r.Some? ==>
          && app.postController.posts == FeedOrder([NewPost(id, r.value, now)] + old(app.postController.posts))
          && app.posts == app.postController.posts
          && app.categories == old(app.categories) && app.selectedCategory == old(app.selectedCategory)
          && content == [] && imageUrl == [] && selectedCategory == [] && !isSubmitting
          && !app.isCreateModalOpen
          && app.modalManager.State() == Apply(old(app.modalManager.State()), Close(CreatePostModal))
    {
      var submission := Submission(content, imageUrl, selectedCategory);
      if submission.None? {
        return;
      }
      Submit(app, submission.value, id, now);
    }

    /** What `handleSubmit` does once the form is filled in: create the post, reset the form, close the dialog. */
    method Submit(app: InstagramApp, data: PostData, id: int, now: int)
      requires app.Valid()
      modifies this, app, app.postController, app.modalManager, app.modalManager.page
      ensures app.Valid()
      ensures app.postController.posts == FeedOrder([NewPost(id, data, now)] + old(app.postController.posts))
      ensures app.posts == app.postController.posts
      ensures app.categories == old(app.categories) && app.selectedCategory == old(app.selectedCategory)
      ensures content == [] && imageUrl == [] && selectedCategory == [] && !isSubmitting
      ensures !app.isCreateModalOpen
      ensures app.modalManager.State() == Apply(old(app.modalManager.State()), Close(CreatePostModal))
    {
      isSubmitting := true;
      app.HandleCreatePost(data, id, now);
      Finish(app);
    }

    /** The steps after `onSubmit`: submitting ends, the form is reset and the dialog closed. */
    method Finish(app: InstagramApp)
      requires app.Valid()
      modifies this, app, app.modalManager, app.modalManager.page
      ensures app.Valid()
      ensures app.posts == old(app.posts)
      ensures app.categories == old(app.categories) && app.selectedCategory == old(app.selectedCategory)
      ensures content == [] && imageUrl == [] && selectedCategory == [] && !isSubmitting
      ensures !app.isCreateModalOpen
      ensures app.modalManager.State() == Apply(old(app.modalManager.State()), Close(CreatePostModal))
    {
      isSubmitting := false;
      content, imageUrl, selectedCategory := [], [], [];
      app.CloseCreateModal();
    }
  }
}
