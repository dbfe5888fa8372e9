# Blog store: write-time lifecycle rules

A Dafny model of the data layer of a small Django blog (posts, comments,
contact messages) and of the two behaviours its admin site adds. The
database is one single-threaded in-memory object, `Models.BlogStore`. It
holds the posts table, the post–user likes table, the comments table and
the contact-messages table as maps from primary key to row. Its methods are
the saves and deletes the models perform. `Valid()` collects the
constraints the schema declares: unique `title` and unique `slug`, a
non-null post `author`, every comment's `post` pointing at a stored post,
and one likes entry per post. It also holds what the publish latch
guarantees: a stored Published post has `published_on` set.

- `ordering.dfy` — module `Ordering`: ORDER BY over a timestamp column,
  ascending and descending.
- `models.dfy` — module `Models` (`blog/models.py`): the three records, the
  field defaults, the `Post.save` latch, the table constraints, the cascading
  delete, the default orderings and the store class.
- `admin.dfy` — module `Admin` (`blog/admin.py`): `PostAdmin.save_model`
  and the `CommentAdmin.approve_comments` action.

The clock is a parameter (`now`). `timezone.now()`, `auto_now` and
`auto_now_add` all read it. Users belong to an external identity model and
appear only as opaque `UserId`s. Primary keys are handed out one above the
largest key used so far. A save with an explicit key that is not stored
inserts a row under that key, as Django's UPDATE-then-INSERT does.

`Post.save` stamps the instance before the database write. So the instance
the save returns (`inst`) carries the latch and the automatic timestamps
even when the write fails on a constraint, and the table is then unchanged.

Django's `save()` runs no field validators, so:
- the `max_length=1000` of `Comment.content` is not checked by `save`, so
  no save fails on long content;
- `ContactMessage.email` is not validated by `save`;
- `approved` is only a default: a caller that builds a comment with
  `approved = true` stores it so;
- there is no dedicated resolve/unresolve operation: `is_resolved` changes
  through an ordinary `SaveMessage`;
- `created_on` is not protected on update: the value the instance carries
  is written back, as Django does for an `auto_now_add` field.

## Model

| member | source | states |
|---|---|---|
| `Models.Latch` | blog/models.py:50-52 | after a save, `published_on` is set iff it was already set or the status is Published; a set value is never changed; a Draft save leaves it exactly as it was, unset included; the only change is stamping the current time |
| `Models.StampSurvivesSaves` | blog/models.py:51 | once `published_on` is set, any sequence of later saves, with any status changes in between, leaves it unchanged |
| `Models.FirstPublicationSticks` | blog/models.py:50-53 | saving an unstamped post repeatedly leaves `published_on` at the time of the first save as Published, or unset if there was none |
| `Models.RepublishKeepsFirstStamp` | blog/models.py:50-53 | on a store: saving as Draft leaves `published_on` unset; publishing at t1 stamps t1; reverting to Draft and publishing again at t2 keeps t1 |
| `Models.NewPost` | blog/models.py:29-39 | a post built with defaults is a Draft with `published_on` unset |
| `Models.NewComment` | blog/models.py:71 | a comment built with defaults is not approved |
| `Models.NewContactMessage` | blog/models.py:93 | a contact message built with defaults is not resolved |
| `Models.PostConflict` | blog/models.py:15-21 | a post can be written iff it has an author and no other stored post has its title or its slug; a missing author is reported exactly when the author is unset, and a reported duplicate names a real clash |
| `Models.WriteKeepsUnique` | blog/models.py:15-16 | writing a post that passes the constraint check keeps titles and slugs unique across the table |
| `Models.BlogStore.SavePost` | blog/models.py:50-53 | the instance is latched and time-stamped; the save fails exactly on a constraint violation and then changes nothing; otherwise the row is written under its own key or a fresh one, a new post has an empty likes set, and the other tables are untouched; the store invariant holds afterwards |
| `Models.BlogStore.NumberOfLikes` | blog/models.py:47-48 | the count is zero exactly when nobody has liked the post |
| `Models.BlogStore.AddLike` | blog/models.py:47-48 | `number_of_likes` grows by one when a new user likes the post and is unchanged when the same user likes it again; fails, changing nothing, when the post is not stored |
| `Models.BlogStore.RemoveLike` | blog/models.py:30-34 | removing a user from the likes set lowers `number_of_likes` by one if the user had liked the post, else leaves it; fails, changing nothing, when the post is not stored |
| `Models.CascadeDelete` | blog/models.py:60-64 | after deleting a post, every comment that referenced it is removed (not re-pointed), no remaining comment references it, and every comment of another post survives unchanged |
| `Models.CascadePartitions` | blog/models.py:60-64 | the rows the cascade destroys are exactly the deleted post's comments: they and the surviving rows are disjoint and together make up the old table |
| `Models.CascadeLeavesNoOrphans` | blog/models.py:60-64 | if every comment referenced a stored post before the delete, every remaining comment references a post that still exists |
| `Models.CascadeKeepsOtherPosts` | blog/models.py:60-64 | after deleting post k, k has no comments and every other post has exactly the comments it had |
| `Models.BlogStore.DeletePost` | blog/models.py:60-64 | the post, its likes and its comments are removed; contact messages are untouched; the store invariant holds afterwards |
| `Models.BlogStore.SaveComment` | blog/models.py:56-75 | a comment whose post is not stored is refused and nothing changes; otherwise it is written with `created_on` set on insert and `updated_on` on every save |
| `Models.BlogStore.DeleteComment` | blog/models.py:56-64 | deleting a comment removes that row only |
| `Models.BlogStore.SaveMessage` | blog/models.py:84-93 | a contact message is written with `created_on` set on insert; the other tables are untouched |
| `Ordering.Ascending` | blog/models.py:77-78 | the result lists every key exactly once, in non-decreasing order of the column |
| `Ordering.Descending` | blog/models.py:41-42 | the result lists every key exactly once, in non-increasing order of the column |
| `Models.PostListing` | blog/models.py:41-42 | posts are listed each once, newest `created_on` first |
| `Models.CommentListing` | blog/models.py:77-78 | comments are listed each once, oldest `created_on` first |
| `Models.PostCommentListing` | blog/models.py:60-78 | a post's comments are listed each once, exactly those of that post, oldest first |
| `Models.MessageListing` | blog/models.py:95-96 | contact messages are listed each once, newest `created_on` first |
| `Admin.WithDefaultAuthor` | blog/admin.py:18-19 | a post without an author gets the requesting user; a post with an author keeps it, whoever makes the request; no other field changes |
| `Admin.AdminSaveHasAuthor` | blog/admin.py:17-20 | a save made through the admin never fails on a missing author |
| `Admin.SaveModel` | blog/admin.py:17-20 | the author is defaulted, then the ordinary post save runs: the latch holds for admin saves; the save fails only on a duplicate title or slug, and then nothing changes; on success an edit is written under its own key, a new post under a fresh key with an empty likes set |
| `Admin.Approved` | blog/admin.py:33-34 | every selected comment is approved; unselected comments are unchanged; selected comments keep every other field, `updated_on` included |
| `Admin.ApproveIsIdempotent` | blog/admin.py:34 | approving the same selection a second time changes nothing |
| `Admin.ApproveNothing` | blog/admin.py:34 | approving an empty selection changes nothing |
| `Admin.ApproveApproved` | blog/admin.py:34 | approving comments that are all approved already changes nothing |
| `Admin.ApproveComments` | blog/admin.py:33-34 | the comment table becomes `Approved` of the old one, in one write; posts, likes and messages are untouched; the store invariant holds afterwards |

## Left out

- Persistence, transactions and concurrent saves: the store is one single-threaded in-memory object.
- The clock: `timezone.now()`, `auto_now` and `auto_now_add` read the `now` parameter instead.
- Email syntax: `EmailField` is a framework validator whose pattern is not part of this model, and `save` does not run it.
- Length limits: the `max_length` values are not enforced by `save`, so no contract mentions them.
- Image upload: `featured_image` is an optional file name; upload handling is not modelled.
- User deletion cascading to posts and comments: users belong to the external identity model.
- Admin screen configuration (`list_display`, `list_filter`, `search_fields`, slug prepopulation, the rich-text editor, registration): declarative UI with no semantics of its own.
- Reading an unset foreign key raises in Django; `author` is an option type here and `save_model` tests it as the code does.
- The `__str__` display strings.
- `Post.status`: Django's `save` does not check `choices`, so the real table could hold other integers. The model types the field by its two declared choices, 0 (Draft) and 1 (Published).
- Which constraint the database reports first when several are violated is not specified by the source. `PostConflict` reports the missing author first, then a duplicate title, then a duplicate slug.
- Models.BlogStore.NumberOfLikes: its own contract says only that the count is zero exactly when the likes set is empty, since the count is the set's size by definition. How `number_of_likes` changes is stated by `SavePost` (zero for a new post), `AddLike` and `RemoveLike`.
- Models.BlogStore.SavePost: only the plain `save()` is modelled, which is how `save_model` calls it (blog/admin.py:20). The `update_fields`, `force_insert`, `force_update` and `using` arguments that `Post.save` forwards (blog/models.py:50,53) are not. With `update_fields` omitting `published_on`, the stamp would reach the instance but not the row.
- Listing order of rows with equal `created_on`: the source leaves it to the database. `Ordering` places such rows by primary key, so a listing is one definite sequence. The contracts state only the `created_on` order.
- The latch guards only the instance's own field. `PostAdmin` declares no `fields` (blog/admin.py:7-20), so the admin form exposes `published_on`. Saving an instance whose `published_on` was cleared stores the cleared value, or a fresh stamp if the post is Published. The model does the same: `SavePost` takes `published_on` from the instance it is given. The never-overwritten lemmas are about saves of an instance that carries its stored stamp.
- The caller's in-memory post object is not modelled by reference: the instance a save mutates is passed in and handed back as a value (`inst`), so aliasing of that object is not captured.
