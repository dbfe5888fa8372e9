/** The two pieces of behaviour the admin site adds on top of the models:
    `PostAdmin.save_model` and the `CommentAdmin.approve_comments` action. */
module Admin {
  import opened Models

  /** The instance after `save_model`'s author defaulting: a post without
      an author gets the requesting user; every other field is kept. */
  function WithDefaultAuthor(obj: Post, user: UserId): (p: Post)
    ensures p.author.Some?
    ensures obj.author.Some? ==> p == obj
    ensures obj.author.None? ==> p.author == Some(user)
    ensures p.(author := obj.author) == obj
  {
    if obj.author.None? then obj.(author := Some(user)) else obj
  }

  /** An admin save never fails for want of an author. */
  lemma AdminSaveHasAuthor(posts: map<PostId, Post>, pk: Option<PostId>, obj: Post, user: UserId, adding: bool, now: Time)
    ensures PostConflict(posts, pk, Stamped(WithDefaultAuthor(obj, user), adding, now)) != Some(MissingAuthor)
  {
  }

  /** `PostAdmin.save_model`: default the author to the requesting user,
      then do the ordinary `Post.save`, latch included. */
  method SaveModel(store: BlogStore, user: UserId, pk: Option<PostId>, obj: Post, now: Time)
    returns (inst: Post, res: Result<PostId>)
    requires store.Valid()
    modifies store
    ensures store.Valid()
    ensures inst.author == if obj.author.Some? then obj.author else Some(user)
    ensures inst == Stamped(WithDefaultAuthor(obj, user), pk.None? || pk.value !in old(store.posts), now)
    ensures inst.publishedOn == Latch(obj.status, obj.publishedOn, now)
    ensures res.Err? <==> PostConflict(old(store.posts), pk, inst).Some?
    ensures res.Err? ==> res.error in {DuplicateTitle, DuplicateSlug} && unchanged(store)
    ensures res.Ok? ==> pk.Some? ==> res.value == pk.value
    ensures res.Ok? ==> pk.None? ==> res.value !in old(store.posts)
    ensures res.Ok? ==> store.posts == old(store.posts)[res.value := inst]
    ensures res.Ok? ==>
      store.likes == if res.value in old(store.likes) then old(store.likes) else old(store.likes)[res.value := {}]
    ensures res.Ok? ==> store.comments == old(store.comments) && store.messages == old(store.messages)
  {
    inst, res := store.SavePost(pk, WithDefaultAuthor(obj, user), now);
  }

  /** The comment table after `queryset.update(approved=True)` over the
      selected keys. */
  function Approved(comments: map<CommentId, Comment>, selection: set<CommentId>): (r: map<CommentId, Comment>)
    ensures r.Keys == comments.Keys
    ensures forall k :: k in r && k in selection ==> r[k].approved
    ensures forall k :: k in r && k !in selection ==> r[k] == comments[k]
    ensures forall k :: k in r ==> r[k].(approved := comments[k].approved) == comments[k]
  {
    map k | k in comments :: if k in selection then comments[k].(approved := true) else comments[k]
  }

  /** Approving the same selection twice changes nothing the second time. */
  lemma ApproveIsIdempotent(comments: map<CommentId, Comment>, selection: set<CommentId>)
    ensures Approved(Approved(comments, selection), selection) == Approved(comments, selection)
  {
  }

  /** Approving an empty selection changes nothing. */
  lemma ApproveNothing(comments: map<CommentId, Comment>)
    ensures Approved(comments, {}) == comments
  {
  }

  /** Approving comments that are already approved changes nothing. */
  lemma ApproveApproved(comments: map<CommentId, Comment>, selection: set<CommentId>)
    requires forall k :: k in comments && k in selection ==> comments[k].approved
    ensures Approved(comments, selection) == comments
  {
  }

  /** `CommentAdmin.approve_comments`: one batch write of `approved = true`.
      A queryset update bypasses `save`, so `updated_on` keeps its value. */
  method ApproveComments(store: BlogStore, selection: set<CommentId>)
    requires store.Valid()
    modifies store
    ensures store.Valid()
    ensures store.comments == Approved(old(store.comments), selection)
    ensures store.posts == old(store.posts) && store.likes == old(store.likes)
    ensures store.messages == old(store.messages)
  {
    store.comments := Approved(store.comments, selection);
  }
}
