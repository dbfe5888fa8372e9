/** The blog's data model: posts, comments and contact messages, the
    publish-on-first-publish latch of `Post.save`, and the write-time rules
    the database enforces for these tables (unique title and slug, NOT NULL
    author, the comment's foreign key with cascading delete, the likes
    association). */
module Models {
  import opened Ordering

  datatype Option<T> = None | Some(value: T)

  datatype Result<T> = Ok(value: T) | Err(error: SaveError)

  /** The database errors a save can raise. */
  datatype SaveError =
    | MissingAuthor   // NOT NULL constraint on `Post.author`
    | DuplicateTitle  // UNIQUE constraint on `Post.title`
    | DuplicateSlug   // UNIQUE constraint on `Post.slug`
    | MissingPost     // FOREIGN KEY constraint of `Comment.post`

  /** An opaque reference to a user of the external identity model. */
  type UserId = nat
  type PostId = nat
  type CommentId = nat
  type MessageId = nat

  /** A clock reading, supplied by the caller in place of the framework's clock. */
  type Time = int

  const DRAFT: int := 0
  const PUBLISHED: int := 1

  /** The declared choices of `Post.status`. */
  type StatusCode = s: int | s == DRAFT || s == PUBLISHED

  /** A post instance. `createdOn` and `updatedOn` are what the framework
      fills in when the instance is saved; `likes` live in their own table. */
  datatype Post = Post(
    title: string,
    slug: string,
    author: Option<UserId>,
    content: string,
    excerpt: string,
    featuredImage: Option<string>,
    status: StatusCode,
    createdOn: Time,
    updatedOn: Time,
    publishedOn: Option<Time>)

  datatype Comment = Comment(
    post: PostId,
    author: UserId,
    content: string,
    approved: bool,
    createdOn: Time,
    updatedOn: Time)

  datatype ContactMessage = ContactMessage(
    name: string,
    email: string,
    subject: string,
    message: string,
    createdOn: Time,
    isResolved: bool)

  /** A post built with only the required fields: every other field takes
      its declared default. The timestamps are placeholders until saved. */
  function NewPost(title: string, slug: string, author: Option<UserId>, content: string): (p: Post)
    ensures p.status == DRAFT && p.publishedOn == None
  {
    Post(title, slug, author, content, "", None, DRAFT, 0, 0, None)
  }

  /** A comment built with only the required fields. */
  function NewComment(post: PostId, author: UserId, content: string): (c: Comment)
    ensures !c.approved
  {
    Comment(post, author, content, false, 0, 0)
  }

  /** A contact message built with only the required fields. */
  function NewContactMessage(name: string, email: string, subject: string, message: string): (m: ContactMessage)
    ensures !m.isResolved
  {
    ContactMessage(name, email, subject, message, 0, false)
  }

  // ---------------------------------------------------------------------
  // The publish latch of Post.save

  /** `published_on` after one save: a save as Published with the field
      unset stamps it with `now`; nothing else ever changes it. */
  function Latch(status: StatusCode, publishedOn: Option<Time>, now: Time): (r: Option<Time>)
    ensures r.Some? <==> publishedOn.Some? || status == PUBLISHED
    ensures publishedOn.Some? ==> r == publishedOn
    ensures status == DRAFT ==> r == publishedOn
    ensures r != publishedOn ==> r == Some(now)
  {
    if status == PUBLISHED && publishedOn.None? then Some(now) else publishedOn
  }

  /** The instance as `Post.save` hands it to the database: the latch,
      then `auto_now_add` (only when the row is new) and `auto_now`. */
  function Stamped(obj: Post, adding: bool, now: Time): Post
  {
    obj.(publishedOn := Latch(obj.status, obj.publishedOn, now),
         createdOn := if adding then now else obj.createdOn,
         updatedOn := now)
  }

  /** One save of the same post instance: the status it carries then and
      the clock reading at that moment. */
  datatype SaveEvent = SaveEvent(status: StatusCode, now: Time)

  /** `published_on` after the instance has been saved once per event, in order. */
  function PublishedOnAfter(publishedOn: Option<Time>, saves: seq<SaveEvent>): Option<Time>
    decreases |saves|
  {
    if saves == [] then publishedOn
    else PublishedOnAfter(Latch(saves[0].status, publishedOn, saves[0].now), saves[1..])
  }

  /** The clock reading of the first event that saves the post as Published. */
  function FirstPublication(saves: seq<SaveEvent>): Option<Time>
    decreases |saves|
  {
    if saves == [] then None
    else if saves[0].status == PUBLISHED then Some(saves[0].now)
    else FirstPublication(saves[1..])
  }

  /** Once stamped, `published_on` survives any later saves, whatever
      status changes happen in between. */
  lemma {:induction false} StampSurvivesSaves(t: Time, saves: seq<SaveEvent>)
    ensures PublishedOnAfter(Some(t), saves) == Some(t)
    decreases |saves|
  {
    if saves != [] {
      StampSurvivesSaves(t, saves[1..]);
    }
  }

  /** Starting unset, `published_on` ends up as the time of the first save
      as Published, and unset if there was none. */
  lemma {:induction false} FirstPublicationSticks(saves: seq<SaveEvent>)
    ensures PublishedOnAfter(None, saves) == FirstPublication(saves)
    decreases |saves|
  {
    if saves != [] {
      if saves[0].status == PUBLISHED {
        StampSurvivesSaves(saves[0].now, saves[1..]);
      } else {
        FirstPublicationSticks(saves[1..]);
      }
    }
  }

  // ---------------------------------------------------------------------
  // Table-level rules

  ghost predicate UniqueTitles(posts: map<PostId, Post>)
  {
    forall i, j :: i in posts && j in posts && i != j ==> posts[i].title != posts[j].title
  }

  ghost predicate UniqueSlugs(posts: map<PostId, Post>)
  {
    forall i, j :: i in posts && j in posts && i != j ==> posts[i].slug != posts[j].slug
  }

  /** Every comment's foreign key resolves to a stored post. */
  ghost predicate NoOrphans(comments: map<CommentId, Comment>, posts: map<PostId, Post>)
  {
    forall c :: c in comments ==> comments[c].post in posts
  }

  /** The first constraint that writing `p` as row `own` (or as a new row)
      would violate, if any. */
  function PostConflict(posts: map<PostId, Post>, own: Option<PostId>, p: Post): (e: Option<SaveError>)
    ensures e.None? <==>
      p.author.Some? &&
      forall j :: j in posts && own != Some(j) ==> posts[j].title != p.title && posts[j].slug != p.slug
    ensures e == Some(DuplicateTitle) ==>
      exists j :: j in posts && own != Some(j) && posts[j].title == p.title
    ensures e == Some(DuplicateSlug) ==>
      exists j :: j in posts && own != Some(j) && posts[j].slug == p.slug
    ensures e == Some(MissingAuthor) <==> p.author.None?
    ensures e.Some? ==> e.value != MissingPost
  {
    if p.author.None? then Some(MissingAuthor)
    else if exists j :: j in posts && own != Some(j) && posts[j].title == p.title then Some(DuplicateTitle)
    else if exists j :: j in posts && own != Some(j) && posts[j].slug == p.slug then Some(DuplicateSlug)
    else None
  }

  /** Writing a post that passes `PostConflict` as row `k` keeps titles
      and slugs unique. */
  lemma WriteKeepsUnique(posts: map<PostId, Post>, own: Option<PostId>, k: PostId, p: Post)
    requires UniqueTitles(posts) && UniqueSlugs(posts)
    requires own == Some(k) || (own.None? && k !in posts)
    requires PostConflict(posts, own, p).None?
    ensures UniqueTitles(posts[k := p]) && UniqueSlugs(posts[k := p])
  {
  }

  /** The comments of post `k` (the `comments` related manager). */
  function CommentsOf(comments: map<CommentId, Comment>, k: PostId): (r: map<CommentId, Comment>)
    ensures forall c :: c in r <==> c in comments && comments[c].post == k
    ensures forall c :: c in r ==> r[c] == comments[c]
  {
    map c | c in comments && comments[c].post == k :: comments[c]
  }

  /** The comment table after post `k` is deleted with ON DELETE CASCADE. */
  function CascadeDelete(comments: map<CommentId, Comment>, k: PostId): (r: map<CommentId, Comment>)
    ensures r.Keys <= comments.Keys
    ensures forall c :: c in r ==> r[c].post != k
    ensures forall c :: c in comments && comments[c].post == k ==> c !in r
    ensures forall c :: c in comments && comments[c].post != k ==> c in r && r[c] == comments[c]
  {
    map c | c in comments && comments[c].post != k :: comments[c]
  }

  /** After the cascade, every remaining comment references a post that
      still exists. */
  lemma CascadeLeavesNoOrphans(comments: map<CommentId, Comment>, posts: map<PostId, Post>, k: PostId)
    requires NoOrphans(comments, posts)
    ensures NoOrphans(CascadeDelete(comments, k), posts - {k})
  {
  }

  /** The cascade removes exactly the deleted post's comments and leaves
      the comments of every other post as they were. */
  lemma CascadeKeepsOtherPosts(comments: map<CommentId, Comment>, k: PostId, j: PostId)
    ensures CommentsOf(CascadeDelete(comments, k), k) == map[]
    ensures j != k ==> CommentsOf(CascadeDelete(comments, k), j) == CommentsOf(comments, j)
  {
  }

  /** Deleting post `k` splits the comment table in two: the rows the
      cascade destroys are exactly the comments of `k`, and the rest stay. */
  lemma CascadePartitions(comments: map<CommentId, Comment>, k: PostId)
    ensures CommentsOf(comments, k).Keys !! CascadeDelete(comments, k).Keys
    ensures CommentsOf(comments, k).Keys + CascadeDelete(comments, k).Keys == comments.Keys
  {
  }

  // ---------------------------------------------------------------------
  // Default orderings

  /** Posts, newest first (`ordering = ['-created_on']`). */
  function PostListing(posts: map<PostId, Post>): (r: seq<PostId>)
    ensures forall k :: k in r <==> k in posts
    ensures forall i :: 0 <= i < |r| ==> r[i] in posts
    ensures forall i, j :: 0 <= i < j < |r| ==> r[i] != r[j]
    ensures forall i, j :: 0 <= i < j < |r| ==> posts[r[i]].createdOn >= posts[r[j]].createdOn
  {
    var created := map k | k in posts :: posts[k].createdOn;
    var r := Descending(created);
    assert forall i, j :: 0 <= i < j < |r| ==> created[r[i]] >= created[r[j]];
    r
  }

  /** Comments, oldest first (`ordering = ['created_on']`). */
  function CommentListing(comments: map<CommentId, Comment>): (r: seq<CommentId>)
    ensures forall k :: k in r <==> k in comments
    ensures forall i :: 0 <= i < |r| ==> r[i] in comments
    ensures forall i, j :: 0 <= i < j < |r| ==> r[i] != r[j]
    ensures forall i, j :: 0 <= i < j < |r| ==> comments[r[i]].createdOn <= comments[r[j]].createdOn
  {
    var created := map k | k in comments :: comments[k].createdOn;
    var r := Ascending(created);
    assert forall i, j :: 0 <= i < j < |r| ==> created[r[i]] <= created[r[j]];
    r
  }

  /** The comments of post `k`, oldest first (`post.comments.all()`). */
  function PostCommentListing(comments: map<CommentId, Comment>, k: PostId): (r: seq<CommentId>)
    ensures forall c :: c in r <==> c in comments && comments[c].post == k
    ensures forall i :: 0 <= i < |r| ==> r[i] in comments
    ensures forall i, j :: 0 <= i < j < |r| ==> r[i] != r[j]
    ensures forall i, j :: 0 <= i < j < |r| ==> comments[r[i]].createdOn <= comments[r[j]].createdOn
  {
    CommentListing(CommentsOf(comments, k))
  }

  /** Contact messages, newest first (`ordering = ['-created_on']`). */
  function MessageListing(messages: map<MessageId, ContactMessage>): (r: seq<MessageId>)
    ensures forall k :: k in r <==> k in messages
    ensures forall i :: 0 <= i < |r| ==> r[i] in messages
    ensures forall i, j :: 0 <= i < j < |r| ==> r[i] != r[j]
    ensures forall i, j :: 0 <= i < j < |r| ==> messages[r[i]].createdOn >= messages[r[j]].createdOn
  {
    var created := map k | k in messages :: messages[k].createdOn;
    var r := Descending(created);
    assert forall i, j :: 0 <= i < j < |r| ==> created[r[i]] >= created[r[j]];
    r
  }

  // ---------------------------------------------------------------------
  // The store

  /** The three tables and the post-likes association table, as one
      single-threaded in-memory database. Primary keys are handed out one
      above the largest key ever used. */
  class BlogStore {
    var posts: map<PostId, Post>
    var likes: map<PostId, set<UserId>>
    var comments: map<CommentId, Comment>
    var messages: map<MessageId, ContactMessage>
    var nextPost: nat
    var nextComment: nat
    var nextMessage: nat

    /** The constraints the schema declares, plus the latch's consequence
        that a stored Published post has been stamped. */
    ghost predicate Valid()
      reads this
    {
      && UniqueTitles(posts)
      && UniqueSlugs(posts)
      && (forall k :: k in posts ==> posts[k].author.Some?)
      && (forall k :: k in posts && posts[k].status == PUBLISHED ==> posts[k].publishedOn.Some?)
      && likes.Keys == posts.Keys
      && NoOrphans(comments, posts)
      && (forall k :: k in posts ==> k < nextPost)
      && (forall k :: k in comments ==> k < nextComment)
      && (forall k :: k in messages ==> k < nextMessage)
    }

    constructor ()
      ensures Valid()
      ensures posts == map[] && likes == map[] && comments == map[] && messages == map[]
    {
      posts, likes, comments, messages := map[], map[], map[], map[];
      nextPost, nextComment, nextMessage := 0, 0, 0;
    }

    /** `number_of_likes()`: the number of users in the post's likes. */
    function NumberOfLikes(k: PostId): (n: nat)
      reads this
      requires k in likes
      ensures n == 0 <==> likes[k] == {}
    {
      |likes[k]|
    }

    /** `Post.save()` on the instance `obj` whose primary key is `pk`.
        `inst` is the instance afterwards: the latch and the automatic
        timestamps are applied to it before the write, so also when the
        write fails. */
    method SavePost(pk: Option<PostId>, obj: Post, now: Time) returns (inst: Post, res: Result<PostId>)
      requires Valid()
      modifies this
      ensures Valid()
      ensures inst == Stamped(obj, pk.None? || pk.value !in old(posts), now)
      ensures inst.publishedOn == Latch(obj.status, obj.publishedOn, now)
      ensures res.Err? <==> PostConflict(old(posts), pk, inst).Some?
      ensures res.Err? ==> Some(res.error) == PostConflict(old(posts), pk, inst) && unchanged(this)
      ensures res.Ok? ==> pk.Some? ==> res.value == pk.value
      ensures res.Ok? ==> pk.None? ==> res.value !in old(posts)
      ensures res.Ok? ==> posts == old(posts)[res.value := inst]
      ensures res.Ok? ==> likes == if res.value in old(likes) then old(likes) else old(likes)[res.value := {}]
      ensures res.Ok? ==> comments == old(comments) && messages == old(messages)
    {
      var adding := pk.None? || pk.value !in posts;
      inst := Stamped(obj, adding, now);
      var conflict := PostConflict(posts, pk, inst);
      if conflict.Some? {
        res := Err(conflict.value);
        return;
      }
      var k := if pk.Some? then pk.value else nextPost;
      WriteKeepsUnique(posts, pk, k, inst);
      posts := posts[k := inst];
      if k !in likes {
        likes := likes[k := {}];
      }
      if nextPost <= k {
        nextPost := k + 1;
      }
      res := Ok(k);
    }

    /** `Post.delete()`; the database cascades to the post's comments and
        to its rows in the likes table. Deleting a missing row deletes nothing. */
    method DeletePost(k: PostId)
      requires Valid()
      modifies this
      ensures Valid()
      ensures posts == old(posts) - {k} && likes == old(likes) - {k}
      ensures comments == CascadeDelete(old(comments), k)
      ensures messages == old(messages)
    {
      CascadeLeavesNoOrphans(comments, posts, k);
      posts := posts - {k};
      likes := likes - {k};
      comments := CascadeDelete(comments, k);
    }

    /** `post.likes.add(user)`; fails when the post is not stored. */
    method AddLike(k: PostId, user: UserId) returns (ok: bool)
      requires Valid()
      modifies this
      ensures Valid()
      ensures ok <==> k in old(posts)
      ensures ok ==> likes == old(likes)[k := old(likes)[k] + {user}]
      ensures ok ==> NumberOfLikes(k) == old(NumberOfLikes(k)) + (if user in old(likes)[k] then 0 else 1)
      ensures !ok ==> likes == old(likes)
      ensures posts == old(posts) && comments == old(comments) && messages == old(messages)
    {
      ok := k in posts;
      if ok {
        var before := likes[k];
        assert user !in before ==> |before + {user}| == |before| + 1;
        assert user in before ==> before + {user} == before;
        likes := likes[k := before + {user}];
      }
    }

    /** `post.likes.remove(user)`; fails when the post is not stored. */
    method RemoveLike(k: PostId, user: UserId) returns (ok: bool)
      requires Valid()
      modifies this
      ensures Valid()
      ensures ok <==> k in old(posts)
      ensures ok ==> likes == old(likes)[k := old(likes)[k] - {user}]
      ensures ok ==> NumberOfLikes(k) == old(NumberOfLikes(k)) - (if user in old(likes)[k] then 1 else 0)
      ensures !ok ==> likes == old(likes)
      ensures posts == old(posts) && comments == old(comments) && messages == old(messages)
    {
      ok := k in posts;
      if ok {
        var before := likes[k];
        assert user in before ==> |before - {user}| == |before| - 1;
        assert user !in before ==> before - {user} == before;
        likes := likes[k := before - {user}];
      }
    }

    /** `Comment.save()`: the framework's save, with `auto_now_add` and
        `auto_now`; the foreign key must resolve to a stored post. */
    method SaveComment(pk: Option<CommentId>, obj: Comment, now: Time) returns (inst: Comment, res: Result<CommentId>)
      requires Valid()
      modifies this
      ensures Valid()
      ensures inst == obj.(createdOn := if pk.None? || pk.value !in old(comments) then now else obj.createdOn,
                           updatedOn := now)
      ensures res.Err? <==> obj.post !in old(posts)
      ensures res.Err? ==> res.error == MissingPost && unchanged(this)
      ensures res.Ok? ==> pk.Some? ==> res.value == pk.value
      ensures res.Ok? ==> pk.None? ==> res.value !in old(comments)
      ensures res.Ok? ==> comments == old(comments)[res.value := inst]
      ensures res.Ok? ==> posts == old(posts) && likes == old(likes) && messages == old(messages)
    {
      var adding := pk.None? || pk.value !in comments;
      inst := obj.(createdOn := if adding then now else obj.createdOn, updatedOn := now);
      if obj.post !in posts {
        res := Err(MissingPost);
        return;
      }
      var k := if pk.Some? then pk.value else nextComment;
      comments := comments[k := inst];
      if nextComment <= k {
        nextComment := k + 1;
      }
      res := Ok(k);
    }

    /** `Comment.delete()`: nothing depends on a comment. */
    method DeleteComment(k: CommentId)
      requires Valid()
      modifies this
      ensures Valid()
      ensures comments == old(comments) - {k}
      ensures posts == old(posts) && likes == old(likes) && messages == old(messages)
    {
      comments := comments - {k};
    }

    /** `ContactMessage.save()`: the framework's save, with `auto_now_add`. */
    method SaveMessage(pk: Option<MessageId>, obj: ContactMessage, now: Time) returns (inst: ContactMessage, id: MessageId)
      requires Valid()
      modifies this
      ensures Valid()
      ensures inst == obj.(createdOn := if pk.None? || pk.value !in old(messages) then now else obj.createdOn)
      ensures pk.Some? ==> id == pk.value
      ensures pk.None? ==> id !in old(messages)
      ensures messages == old(messages)[id := inst]
      ensures posts == old(posts) && likes == old(likes) && comments == old(comments)
    {
      var adding := pk.None? || pk.value !in messages;
      inst := obj.(createdOn := if adding then now else obj.createdOn);
      id := if pk.Some? then pk.value else nextMessage;
      messages := messages[id := inst];
      if nextMessage <= id {
        nextMessage := id + 1;
      }
    }
  }

  /** Create a draft, publish it at `t1`, revert it to Draft, publish it
      again at `t2`: the post keeps the stamp of `t1` throughout. */
  method RepublishKeepsFirstStamp(author: UserId, t0: Time, t1: Time, t2: Time)
    returns (asDraft: Option<Time>, published: Option<Time>, reverted: Option<Time>, republished: Option<Time>)
    ensures asDraft == None
    ensures published == Some(t1) && reverted == Some(t1) && republished == Some(t1)
  {
    var store := new BlogStore();
    var obj, res := store.SavePost(None, NewPost("A", "a", Some(author), "text"), t0);
    assert res.Ok?;
    var pk := Some(res.value);
    asDraft := obj.publishedOn;

    obj, res := store.SavePost(pk, obj.(status := PUBLISHED), t1);
    assert res.Ok?;
    published := obj.publishedOn;

    obj, res := store.SavePost(pk, obj.(status := DRAFT), t2);
    assert res.Ok?;
    reverted := obj.publishedOn;

    obj, res := store.SavePost(pk, obj.(status := PUBLISHED), t2);
    assert res.Ok?;
    republished := store.posts[pk.value].publishedOn;
  }
}
