# BlogPost persistence hooks

A Dafny model of the lifecycle hooks of the BlogPost entity of a small blog
backend built on the gstore object-document mapper over Google Cloud
Datastore, with poster images kept in Google Cloud Storage (GCS). The model
covers:

- the pure save-time transform: `addPosterUri`, `sanitize` and
  `createExcerpt`, chained right to left by ramda's `compose`;
- the pre-save hook `deletePreviousImage`, which deletes the stored poster
  image when an existing post clears its poster URI or attaches a file;
- the pre-delete hook `deleteCloudStorageObject`, which deletes the poster
  image of the post being deleted;
- the post-delete hook `deleteComments`, which deletes every comment of the
  deleted post;
- the hook order: on save, cleanup before data preparation; on delete, image
  cleanup, then the datastore delete, then the comment cascade.

JavaScript values are `Js<T>` (`Undefined`, `Null` or `Val(v)`), so that the
truthiness tests of the source are reproduced: `x || null` turns a missing or
empty string into `null` (`Js.OrNull`), `!entity.cloudStorageObject` treats an
empty string as absent (`Js.StrTruthy`), a key id is truthy when present and
non-zero (`Js.IdTruthy`), and an attached `file` is an object, hence truthy
exactly when it is a value.

The store is the class `BlogPostHooks.Datastore`: the stored posts by id,
the comments by key, a log of reads of a post by key (the dataloader load and
`datastoreEntity()`), and a log of object deletions sent to GCS. The
entity being saved or deleted, the `this` of the hooks, is the class
`BlogPostHooks.BlogPostEntity` with its key and its entity data.

gstore's `Model.sanitize` and `stringHelpers.createExcerpt` are not part of
this model: they are parameters, bundled as `BlogPostData.Collaborators`, and
every property about the pipeline holds for any choice of them.

Assumption: the pre-save test reads `this.posterUri` (blog-post.model.js line 67)
while `addPosterUri` reads `entityData.posterUri` (line 100). The model reads
both as the same incoming poster URI of the entity data. The
`posterUri == Null` clause of `BlogPostHooks.ShouldFetchPrevious`, and through
it the null-poster case of `BlogPostHooks.RewriteImpliesCleanup`, rest on this
reading.

Consequence of the code as written, stated as
`BlogPostHooks.NullFileCleansUpWithoutRewrite`: the cleanup tests whether
`file` is defined, `addPosterUri` tests whether it is truthy. On a save of an
existing post with `file: null` and a poster URI, the stored image, if any, is
deleted while addPosterUri leaves the poster properties as they came in.

## Model

| member | source | states |
|---|---|---|
| `Js.OrNull` | server/modules/blog/blog-post/blog-post.model.js:97-98 | `x \|\| null` is null exactly when `x` is missing, null or empty, and is `x` itself otherwise |
| `Js.StrTruthy` | server/modules/blog/blog-post/blog-post.model.js:69 | a string property is falsy exactly when it is undefined, null or the empty string |
| `Js.IdTruthy` | server/modules/blog/blog-post/blog-post.model.js:67 | a key id is falsy exactly when it is undefined, null or zero |
| `Ramda.Compose` | server/modules/blog/blog-post/blog-post.model.js:82 | composing one function is applying it |
| `Ramda.ComposeAppend` | server/modules/blog/blog-post/blog-post.model.js:82 | composing a concatenation applies the right part first, then the left part |
| `Ramda.ComposeThree` | server/modules/blog/blog-post/blog-post.model.js:80-84 | `compose(f, g, h)(x)` is `f(g(h(x)))`: the last function runs first |
| `BlogPostData.AddPosterUri` | server/modules/blog/blog-post/blog-post.model.js:93-108 | with a file attached, posterUri and cloudStorageObject come from the upload (null when missing or empty), even when posterUri was null; without one, a null posterUri nulls cloudStorageObject; otherwise the data is unchanged; no other property ever changes |
| `BlogPostData.CreateExcerpt` | server/modules/blog/blog-post/blog-post.model.js:120-125 | the excerpt is the excerpt helper applied to the content; no other property changes |
| `BlogPostData.PrepareEntityData` | server/modules/blog/blog-post/blog-post.model.js:78-87 | composing the list (createExcerpt, sanitize, addPosterUri) right to left gives createExcerpt of sanitize of addPosterUri of the input; only the excerpt differs from the sanitized data, and it comes from the sanitized content |
| `BlogPostData.AddPosterUriIdempotent` | server/modules/blog/blog-post/blog-post.model.js:93-108 | applying addPosterUri twice equals applying it once |
| `BlogPostData.FileWinsOverNullPoster` | server/modules/blog/blog-post/blog-post.model.js:94-100 | an attached file with a public URL sets posterUri even when the incoming posterUri is null |
| `BlogPostData.NullPosterHasNoObject` | server/modules/blog/blog-post/blog-post.model.js:100-105 | unless an upload without a public URL is attached, a null posterUri after addPosterUri comes with a null cloudStorageObject |
| `BlogPostData.ExcerptDependsOnlyOnContent` | server/modules/blog/blog-post/blog-post.model.js:120-125 | two inputs with equal content get equal excerpts |
| `BlogPostData.CreateExcerptIdempotent` | server/modules/blog/blog-post/blog-post.model.js:120-125 | creating the excerpt twice equals creating it once |
| `BlogPostHooks.Lookup` | server/modules/blog/blog-post/blog-post.model.js:68 | loading a key yields the stored post when its id is stored, else null |
| `BlogPostHooks.ObjectsToDelete` | server/modules/blog/blog-post/blog-post.model.js:69-72 | at most one object is deleted; none exactly when the entity is missing or its cloudStorageObject is missing or empty; otherwise that non-empty object |
| `BlogPostHooks.ShouldFetchPrevious` | server/modules/blog/blog-post/blog-post.model.js:67 | the store is consulted only for a truthy key id, always when that id comes with a null posterUri or a `file` property (an upload or null), never when `file` is undefined and posterUri is not null; posterUri here is the entity data's |
| `BlogPostHooks.CommentsAfterCascade` | server/modules/blog/blog-post/blog-post.model.js:153-160 | a comment remains exactly when it does not reference the deleted post, and it remains unchanged |
| `BlogPostHooks.Datastore.Load` | server/modules/blog/blog-post/blog-post.model.js:132 | a read returns the lookup of the key and is recorded in the read log |
| `BlogPostHooks.Datastore.DeleteFromGcs` | server/modules/blog/blog-post/blog-post.model.js:136 | a GCS delete appends the object name to the delete log |
| `BlogPostHooks.Datastore.CommentKeysOf` | server/modules/blog/blog-post/blog-post.model.js:153-158 | the keys-only query returns exactly the keys of the comments whose blogPost is the id |
| `BlogPostHooks.Datastore.DeleteCommentKeys` | server/modules/blog/blog-post/blog-post.model.js:159 | the bulk delete removes exactly the given comment keys |
| `BlogPostHooks.Datastore.DeletePost` | server/modules/blog/blog-post/blog-post.model.js:48-53 | the datastore delete between the two delete hooks removes the post and nothing else |
| `BlogPostHooks.BlogPostEntity.DeleteImageOf` | server/modules/blog/blog-post/blog-post.model.js:133-137 | the delete log grows by the objects to delete of the loaded entity, and nothing else changes |
| `BlogPostHooks.BlogPostEntity.DeletePreviousImage` | server/modules/blog/blog-post/blog-post.model.js:66-76 | an existing post whose save nulls posterUri or carries a file key is read once and its stored image deleted if any; otherwise no read and no delete; posts and comments never change |
| `BlogPostHooks.BlogPostEntity.PrepareEntityData` | server/modules/blog/blog-post/blog-post.model.js:78-87 | the entity data is replaced by its prepared form |
| `BlogPostHooks.BlogPostEntity.PreSave` | server/modules/blog/blog-post/blog-post.model.js:43 | the cleanup decides on the incoming, unprepared data and the stored post; the data is then prepared |
| `BlogPostHooks.BlogPostEntity.DeleteCloudStorageObject` | server/modules/blog/blog-post/blog-post.model.js:130-138 | the stored post is read once and its non-empty image deleted, at most once; posts and comments never change |
| `BlogPostHooks.DeleteComments` | server/modules/blog/blog-post/blog-post.model.js:146-161 | afterwards the comments are the cascade of the old comments by the id, and the posts are untouched |
| `BlogPostHooks.Delete` | server/modules/blog/blog-post/blog-post.model.js:45-53 | a delete removes the post, deletes its stored image at most once, and removes exactly the comments that reference it |
| `BlogPostHooks.RewriteImpliesCleanup` | server/modules/blog/blog-post/blog-post.model.js:66-108 | whenever addPosterUri changes the image reference of an existing post, the cleanup consulted the stored post |
| `BlogPostHooks.NullFileCleansUpWithoutRewrite` | server/modules/blog/blog-post/blog-post.model.js:67-107 | with `file: null` and a poster URI on an existing post, the cleanup runs but addPosterUri leaves the data unchanged |
| `BlogPostHooks.NewEntityNeverFetches` | server/modules/blog/blog-post/blog-post.model.js:67-75 | a save without a truthy key id never consults the store |
| `BlogPostHooks.CascadeIdempotent` | server/modules/blog/blog-post/blog-post.model.js:146-161 | deleting the comments of a post twice equals deleting them once |
| `BlogPostHooks.DeleteKeepsNoOrphans` | server/modules/blog/blog-post/blog-post.model.js:146-161 | if every comment belongs to a stored post, that still holds after a post and its comments are deleted |

## Left out

- The schema declaration and the `list` query configuration (blog-post.model.js lines 14-33): mapper configuration, not behaviour.
- The bodies of gstore's `Model.sanitize`, `stringHelpers.createExcerpt` and `imagesHelpers.deleteFromGCS`: not part of this model; the first two are parameters, the third is an entry in the GCS delete log.
- The route handlers (blog-post.routes-handlers.js): HTTP and template glue over a domain module that is not part of this model.
- Asynchrony: each hook is one sequential step; promise rejection and failures of the datastore or of GCS are not modelled.
- The dataloader's batching and caching, and the merge semantics of `datastoreEntity()`: a read is a lookup in the posts map.
- A `file` property holding a falsy non-object (`false`, `0`, `""`): the model takes `file` to be an upload object, `null` or missing.
- Keys with a name instead of an id, and keys of other kinds: posts are stored by numeric id, and a delete is always by id.
- The write of a save itself and the id allocation of a new post: only the pre-save hooks are modelled.
- Ramda.Compose: with no functions it returns its argument, where ramda throws; only the three-function pipeline is used.
