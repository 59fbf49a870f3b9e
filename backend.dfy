/**
 * The in-memory feed service of `backend/index.js`: two read-only event lists,
 * a mutable list of posts, and the handlers that read them or prepend to the posts.
 */
module Backend {
  import opened Common

  // ---------------------------------------------------------------------------
  // Data model
  // ---------------------------------------------------------------------------

  datatype TrendingEvent = TrendingEvent(id: int, category: string, title: string, tags: seq<string>)

  datatype UpcomingEvent = UpcomingEvent(id: int, date: string, title: string, description: string, attending: nat)

  /** A post; `timestamp` is the ISO-8601 text the caller's clock produced, never inspected here. */
  datatype Post = Post(id: int, content: string, author: string, timestamp: string, likes: nat)

  /** A response of a read route: an HTTP status and the JSON body. */
  datatype Reply<T> = Reply(status: int, body: T)

  /** The two outcomes of `POST /api/posts`. */
  datatype CreateReply = Created(post: Post) | BadRequest(error: string)
  {
    /** The HTTP status the handler sends with this outcome. */
    function Status(): int
    {
      match this
      case Created(_) => 201
      case BadRequest(_) => 400
    }
  }

  /** What handling one create request yields: the reply and the post list afterwards. */
  datatype Handled = Handled(reply: CreateReply, posts: seq<Post>)

  // ---------------------------------------------------------------------------
  // Constants
  // ---------------------------------------------------------------------------

  /** The paths the handlers of `FeedStore` are mounted at. */
  const TrendingRoute: string := "/api/events/trending"
  const UpcomingRoute: string := "/api/events/upcoming"
  const PostsRoute: string := "/api/posts"

  const ContentRequired: string := "Content is required"
  const PlaceholderAuthor: string := "You"

  const TrendingEvents: seq<TrendingEvent> := [
    TrendingEvent(1, "CODECHEF CHAPTER", "HackOverflow 2.0", ["Tech", "Coding", "Free"]),
    TrendingEvent(2, "STUDENT CLUB", "NextGen AI Summit", ["AI", "Workshop", "Paid"])
  ]

  const UpcomingEvents: seq<UpcomingEvent> := [
    UpcomingEvent(1, "2026-01-16", "HackOverflow 2.0", "The biggest coding competition on campus", 142)
  ]

  /** The posts the process starts with; the two timestamps are read from the clock at start-up. */
  function SeedPosts(now: string, hourAgo: string): (ps: seq<Post>)
    ensures |ps| == 2 && ps[0].id == 1 && ps[1].id == 2
    ensures WellFormed(ps)
  {
    assert IdRange(2) == [1, 2];
    [ Post(1, "Just accepted the challenge for HackOverflow 2.0! \U{1F680} #coding", "Alex", now, 5),
      Post(2, "Anyone going to the AI Summit tomorrow?", "Sarah", hourAgo, 2) ]
  }

  // ---------------------------------------------------------------------------
  // The id invariant: the ids of n posts are a permutation of 1..n
  // ---------------------------------------------------------------------------

  /** The ids of `ps`, in list order. */
  function Ids(ps: seq<Post>): (ids: seq<int>)
    ensures |ids| == |ps|
    ensures forall i :: 0 <= i < |ps| ==> ids[i] == ps[i].id
  {
    if ps == [] then [] else [ps[0].id] + Ids(ps[1..])
  }

  /** The ids 1, 2, ..., n. */
  function IdRange(n: nat): seq<int>
  {
    if n == 0 then [] else IdRange(n - 1) + [n]
  }

  /** Every id from 1 to |ps| occurs exactly once in `ps`, and no other id occurs. */
  ghost predicate IdsArePermutation(ps: seq<Post>)
  {
    multiset(Ids(ps)) == multiset(IdRange(|ps|))
  }

  /** The state invariant of the post list. */
  ghost predicate WellFormed(ps: seq<Post>)
  {
    IdsArePermutation(ps) && forall i :: 0 <= i < |ps| ==> ps[i].content != ""
  }

  /** 1..n holds each of 1..n once and nothing else. */
  lemma {:induction false} IdRangeCount(n: nat)
    ensures forall x :: multiset(IdRange(n))[x] == if 1 <= x <= n then 1 else 0
  {
    if n > 0 {
      IdRangeCount(n - 1);
      assert multiset(IdRange(n)) == multiset(IdRange(n - 1)) + multiset{n};
    }
  }

  /** Under the invariant, every id lies in 1..|ps|. */
  lemma IdsInRange(ps: seq<Post>)
    requires IdsArePermutation(ps)
    ensures forall i :: 0 <= i < |ps| ==> 1 <= ps[i].id <= |ps|
  {
    IdRangeCount(|ps|);
    forall i | 0 <= i < |ps| ensures 1 <= ps[i].id <= |ps| {
      assert Ids(ps)[i] == ps[i].id;
      assert ps[i].id in multiset(Ids(ps));
    }
  }

  /** Under the invariant, the id the create handler picks, |ps| + 1, is not taken. */
  lemma NextIdIsFresh(ps: seq<Post>)
    requires IdsArePermutation(ps)
    ensures forall i :: 0 <= i < |ps| ==> ps[i].id != |ps| + 1
  {
    IdsInRange(ps);
  }

  /** Under the invariant, no two posts share an id. */
  lemma IdsAreDistinct(ps: seq<Post>)
    requires IdsArePermutation(ps)
    ensures forall i, j :: 0 <= i < j < |ps| ==> ps[i].id != ps[j].id
  {
    IdRangeCount(|ps|);
    forall i, j | 0 <= i < j < |ps| ensures ps[i].id != ps[j].id {
      if ps[i].id == ps[j].id {
        RepeatedValueCount(Ids(ps), i, j);
        assert false;
      }
    }
  }

  /** A value at two positions of a sequence occurs at least twice in its multiset. */
  lemma RepeatedValueCount(s: seq<int>, i: nat, j: nat)
    requires i < j < |s| && s[i] == s[j]
    ensures multiset(s)[s[i]] >= 2
  {
    assert s == s[..j] + s[j..];
    assert s[..j][i] == s[i];
    assert s[j..][0] == s[i];
  }

  /** Under the invariant, every id from 1 to |ps| is some post's id. */
  lemma IdsCoverRange(ps: seq<Post>)
    requires IdsArePermutation(ps)
    ensures forall k :: 1 <= k <= |ps| ==> k in Ids(ps)
  {
    IdRangeCount(|ps|);
    forall k | 1 <= k <= |ps| ensures k in Ids(ps) {
      assert k in multiset(Ids(ps));
    }
  }

  // ---------------------------------------------------------------------------
  // POST /api/posts as a function of the old list
  // ---------------------------------------------------------------------------

  /** The effect of `POST /api/posts` with parsed body field `content` on the list `ps`. */
  function Create(ps: seq<Post>, content: Option<string>, now: string): (h: Handled)
    ensures h.reply.Status() == if Truthy(content) then 201 else 400
    ensures !Truthy(content) ==> h.reply == BadRequest(ContentRequired) && h.posts == ps
    ensures Truthy(content) ==>
              && h.reply.Created?
              && h.reply.post == Post(|ps| + 1, content.value, PlaceholderAuthor, now, 0)
              && |h.posts| == |ps| + 1
              && h.posts[0] == h.reply.post
              && h.posts[1..] == ps
  {
    if !Truthy(content) then
      Handled(BadRequest(ContentRequired), ps)
    else
      var post := Post(|ps| + 1, content.value, PlaceholderAuthor, now, 0);
      Handled(Created(post), [post] + ps)
  }

  /** Creating a post keeps the invariant: ids stay a permutation of 1..n and contents stay non-empty. */
  lemma CreatePreservesWellFormed(ps: seq<Post>, content: Option<string>, now: string)
    requires WellFormed(ps)
    ensures WellFormed(Create(ps, content, now).posts)
  {
    var h := Create(ps, content, now);
    if Truthy(content) {
      var n := |ps|;
      assert Ids(h.posts) == [n + 1] + Ids(ps);
      assert IdRange(n + 1) == IdRange(n) + [n + 1];
      assert multiset(Ids(h.posts)) == multiset{n + 1} + multiset(Ids(ps));
    }
  }

  /** Whitespace-only content is truthy, so it is accepted and stored verbatim. */
  lemma WhitespaceContentAccepted(ps: seq<Post>, s: string, now: string)
    requires s != [] && forall i :: 0 <= i < |s| ==> s[i] == ' '
    ensures Create(ps, Some(s), now).reply.Created?
    ensures Create(ps, Some(s), now).reply.post.content == s
  {
  }

  /** Every create, successful or not, leaves the existing posts in place and in order at the tail. */
  lemma CreateKeepsOldPosts(ps: seq<Post>, content: Option<string>, now: string)
    ensures var after := Create(ps, content, now).posts;
            |after| - |ps| in {0, 1} && after[|after| - |ps|..] == ps
  {
  }

  // ---------------------------------------------------------------------------
  // The process-wide store and its handlers
  // ---------------------------------------------------------------------------

  /** The module-level `let posts` of the backend, with the handlers that use it. */
  class FeedStore {
    var posts: seq<Post>

    ghost predicate Valid()
      reads this
    {
      WellFormed(posts)
    }

    /** Start-up: the seed posts, with the two timestamps read from the clock. */
    constructor (now: string, hourAgo: string)
      ensures Valid()
      ensures posts == SeedPosts(now, hourAgo)
    {
      posts := SeedPosts(now, hourAgo);
    }

    /** The handler of `GET` on `TrendingRoute`: the fixed list, changing nothing. */
    method GetTrending() returns (reply: Reply<seq<TrendingEvent>>)
      ensures reply.status == 200 && reply.body == TrendingEvents
    {
      reply := Reply(200, TrendingEvents);
    }

    /** The handler of `GET` on `UpcomingRoute`: the fixed list, changing nothing. */
    method GetUpcoming() returns (reply: Reply<seq<UpcomingEvent>>)
      ensures reply.status == 200 && reply.body == UpcomingEvents
    {
      reply := Reply(200, UpcomingEvents);
    }

    /** The handler of `GET` on `PostsRoute`: the stored list as-is, newest first, changing nothing. */
    method GetPosts() returns (reply: Reply<seq<Post>>)
      ensures reply.status == 200 && reply.body == posts
    {
      reply := Reply(200, posts);
    }

    /** The handler of `POST` on `PostsRoute`: validate `content`, build the post and prepend it. */
    method CreatePost(content: Option<string>, now: string) returns (reply: CreateReply)
      requires Valid()
      modifies this
      ensures Valid()
      ensures Handled(reply, posts) == Create(old(posts), content, now)
      ensures reply.Created? ==> forall i :: 0 <= i < |old(posts)| ==> old(posts)[i].id != reply.post.id
    {
      CreatePreservesWellFormed(posts, content, now);
      NextIdIsFresh(posts);
      if !Truthy(content) {
        return BadRequest(ContentRequired);
      }
      var newPost := Post(|posts| + 1, content.value, PlaceholderAuthor, now, 0);
      posts := [newPost] + posts;
      reply := Created(newPost);
    }
  }

  /** The scenario: from the seed, creating "hello" yields post 3, which a following read lists first. */
  method HelloScenario(now: string, hourAgo: string, later: string)
    returns (created: CreateReply, listed: Reply<seq<Post>>)
    ensures created == Created(Post(3, "hello", "You", later, 0)) && created.Status() == 201
    ensures listed.status == 200 && |listed.body| == 3
    ensures listed.body[0] == created.post && listed.body[1..] == SeedPosts(now, hourAgo)
  {
    var store := new FeedStore(now, hourAgo);
    created := store.CreatePost(Some("hello"), later);
    listed := store.GetPosts();
  }

  /** The scenario: from the seed, an empty body is refused with 400 and the list keeps its two posts. */
  method EmptyBodyScenario(now: string, hourAgo: string, later: string)
    returns (refused: CreateReply, listed: Reply<seq<Post>>)
    ensures refused == BadRequest("Content is required") && refused.Status() == 400
    ensures listed.body == SeedPosts(now, hourAgo) && |listed.body| == 2
  {
    var store := new FeedStore(now, hourAgo);
    refused := store.CreatePost(None, later);
    listed := store.GetPosts();
  }
}
