/** The persistence hooks of the BlogPost model: the pre-save image cleanup
    and data preparation, the pre-delete image cleanup and the post-delete
    comment cascade, over an abstract datastore and file storage. */
module BlogPostHooks {
  import opened Js
  import opened BlogPostData

  /** A datastore key of kind BlogPost; `Undefined` for an entity not yet saved. */
  datatype PostKey = PostKey(id: Js<nat>)

  /** A Comment entity; `blogPost` holds the id of the post it belongs to. */
  datatype Comment = Comment(blogPost: nat, name: string, comment: string)

  /** What a load of `key` yields: the stored entity, or null when there is none. */
  function Lookup(posts: map<nat, EntityData>, key: PostKey): (e: Js<EntityData>)
    ensures e != Undefined
    ensures e.Val? <==> key.id.Val? && key.id.v in posts
    ensures e.Val? ==> e.v == posts[key.id.v]
  {
    if key.id.Val? && key.id.v in posts then Val(posts[key.id.v]) else Null
  }

  /** The storage objects to delete for a loaded entity: none when the
      entity is missing or its storage object is missing or empty, else
      exactly that object. */
  function ObjectsToDelete(e: Js<EntityData>): (r: seq<string>)
    ensures |r| <= 1
    ensures r == [] <==> !e.Val? || !StrTruthy(e.v.cloudStorageObject)
    ensures r != [] ==> e.Val? && e.v.cloudStorageObject == Val(r[0]) && r[0] != ""
  {
    if !e.Val? || !StrTruthy(e.v.cloudStorageObject) then [] else [e.v.cloudStorageObject.v]
  }

  /** The pre-save cleanup consults the store when the entity already
      exists and the save clears the poster URI or carries a `file`
      property, even a null one. */
  predicate ShouldFetchPrevious(key: PostKey, d: EntityData)
    ensures ShouldFetchPrevious(key, d) ==> IdTruthy(key.id)
    ensures IdTruthy(key.id) && d.posterUri == Null ==> ShouldFetchPrevious(key, d)
    ensures IdTruthy(key.id) && d.file.Val? ==> ShouldFetchPrevious(key, d)
    ensures IdTruthy(key.id) && d.file == Null ==> ShouldFetchPrevious(key, d)
    ensures d.file == Undefined && d.posterUri != Null ==> !ShouldFetchPrevious(key, d)
  {
    IdTruthy(key.id) && (d.posterUri == Null || d.file != Undefined)
  }

  /** The comments left once the comments of post `id` are deleted. */
  function CommentsAfterCascade(comments: map<nat, Comment>, id: nat): (r: map<nat, Comment>)
    ensures forall k :: k in r <==> k in comments && comments[k].blogPost != id
    ensures forall k :: k in r ==> r[k] == comments[k]
  {
    map k | k in comments && comments[k].blogPost != id :: comments[k]
  }

  /** Every comment belongs to a stored post. */
  ghost predicate NoOrphans(posts: map<nat, EntityData>, comments: map<nat, Comment>)
  {
    forall k :: k in comments ==> comments[k].blogPost in posts
  }

  /** The datastore and the external file storage, as far as the hooks
      touch them. `fetches` records every read of a BlogPost by key and
      `gcsDeletes` every object deletion sent to file storage. */
  class Datastore {
    var posts: map<nat, EntityData>
    var comments: map<nat, Comment>
    var fetches: seq<PostKey>
    var gcsDeletes: seq<string>

    constructor (posts0: map<nat, EntityData>, comments0: map<nat, Comment>)
      ensures posts == posts0 && comments == comments0
      ensures fetches == [] && gcsDeletes == []
    {
      posts, comments := posts0, comments0;
      fetches, gcsDeletes := [], [];
    }

    /** Reads the BlogPost stored under `key`. */
    method Load(key: PostKey) returns (e: Js<EntityData>)
      modifies this`fetches
      ensures e == Lookup(posts, key)
      ensures fetches == old(fetches) + [key]
    {
      fetches := fetches + [key];
      e := Lookup(posts, key);
    }

    /** Deletes an object from file storage. */
    method DeleteFromGcs(name: string)
      modifies this`gcsDeletes
      ensures gcsDeletes == old(gcsDeletes) + [name]
    {
      gcsDeletes := gcsDeletes + [name];
    }

    /** The keys-only query for the comments whose `blogPost` is `id`. */
    method CommentKeysOf(id: nat) returns (ks: set<nat>)
      ensures forall k :: k in ks <==> k in comments && comments[k].blogPost == id
    {
      ks := set k | k in comments && comments[k].blogPost == id;
    }

    /** Bulk delete of comments by key. */
    method DeleteCommentKeys(ks: set<nat>)
      modifies this`comments
      ensures comments == old(comments) - ks
    {
      comments := comments - ks;
    }

    /** The datastore's own delete of a BlogPost, between the two delete hooks. */
    method DeletePost(id: nat)
      modifies this`posts
      ensures posts == old(posts) - {id}
    {
      posts := posts - {id};
    }
  }

  /** A BlogPost entity, the `this` of the hooks. */
  class BlogPostEntity {
    var entityKey: PostKey
    var entityData: EntityData

    constructor (key: PostKey, data: EntityData)
      ensures entityKey == key && entityData == data
    {
      entityKey, entityData := key, data;
    }

    /** The callback of both image hooks: delete the loaded entity's storage
        object, if it has a non-empty one. */
    static method DeleteImageOf(db: Datastore, e: Js<EntityData>)
      modifies db`gcsDeletes
      ensures db.gcsDeletes == old(db.gcsDeletes) + ObjectsToDelete(e)
    {
      if !e.Val? || !StrTruthy(e.v.cloudStorageObject) {
        return;
      }
      db.DeleteFromGcs(e.v.cloudStorageObject.v);
    }

    /** Pre-save hook: when the poster is being cleared or replaced on an
        existing entity, delete the image of the stored version. */
    method DeletePreviousImage(db: Datastore)
      modifies db`fetches, db`gcsDeletes
      ensures db.posts == old(db.posts) && db.comments == old(db.comments)
      ensures ShouldFetchPrevious(entityKey, entityData) ==>
                && db.fetches == old(db.fetches) + [entityKey]
                && db.gcsDeletes == old(db.gcsDeletes) + ObjectsToDelete(Lookup(db.posts, entityKey))
      ensures !ShouldFetchPrevious(entityKey, entityData) ==>
                db.fetches == old(db.fetches) && db.gcsDeletes == old(db.gcsDeletes)
    {
      if IdTruthy(entityKey.id) && (entityData.posterUri == Null || entityData.file != Undefined) {
        var entity := db.Load(entityKey);
        DeleteImageOf(db, entity);
      }
    }

    /** Pre-save hook: replace the entity data by its prepared form. */
    method PrepareEntityData(h: Collaborators)
      modifies this`entityData
      ensures entityData == BlogPostData.PrepareEntityData(h, old(entityData))
    {
      entityData := BlogPostData.PrepareEntityData(h, entityData);
    }

    /** The pre-save hooks in their registered order: image cleanup on the
        incoming data, then data preparation. */
    method PreSave(db: Datastore, h: Collaborators)
      modifies this`entityData, db`fetches, db`gcsDeletes
      ensures db.posts == old(db.posts) && db.comments == old(db.comments)
      ensures ShouldFetchPrevious(entityKey, old(entityData)) ==>
                && db.fetches == old(db.fetches) + [entityKey]
                && db.gcsDeletes == old(db.gcsDeletes) + ObjectsToDelete(Lookup(db.posts, entityKey))
      ensures !ShouldFetchPrevious(entityKey, old(entityData)) ==>
                db.fetches == old(db.fetches) && db.gcsDeletes == old(db.gcsDeletes)
      ensures entityData == BlogPostData.PrepareEntityData(h, old(entityData))
    {
      DeletePreviousImage(db);
      PrepareEntityData(h);
    }

    /** Pre-delete hook: read the stored entity and delete its image. */
    method DeleteCloudStorageObject(db: Datastore)
      modifies db`fetches, db`gcsDeletes
      ensures db.posts == old(db.posts) && db.comments == old(db.comments)
      ensures db.fetches == old(db.fetches) + [entityKey]
      ensures db.gcsDeletes == old(db.gcsDeletes) + ObjectsToDelete(Lookup(db.posts, entityKey))
    {
      var entity := db.Load(entityKey);
      DeleteImageOf(db, entity);
    }
  }

  /** Post-delete hook: delete every comment of the deleted post. */
  method DeleteComments(db: Datastore, id: nat)
    modifies db`comments
    ensures db.comments == CommentsAfterCascade(old(db.comments), id)
    ensures db.posts == old(db.posts)
  {
    var ks := db.CommentKeysOf(id);
    db.DeleteCommentKeys(ks);
  }

  /** Deleting the post `id`: the pre-delete hook, the datastore delete,
      then the post-delete hook. */
  method Delete(db: Datastore, id: nat)
    modifies db
    ensures db.posts == old(db.posts) - {id}
    ensures db.comments == CommentsAfterCascade(old(db.comments), id)
    ensures db.fetches == old(db.fetches) + [PostKey(Val(id))]
    ensures db.gcsDeletes == old(db.gcsDeletes) + ObjectsToDelete(Lookup(old(db.posts), PostKey(Val(id))))
  {
    var entity := new BlogPostEntity(PostKey(Val(id)), EntityData(Undefined, Undefined, Undefined, Undefined, Undefined, Undefined, Undefined, Undefined));
    entity.DeleteCloudStorageObject(db);
    db.DeletePost(id);
    DeleteComments(db, id);
  }

  /** Whenever addPosterUri rewrites the image reference of an existing
      post, the pre-save cleanup has consulted the stored version. */
  lemma RewriteImpliesCleanup(key: PostKey, d: EntityData)
    requires IdTruthy(key.id)
    requires AddPosterUri(d).posterUri != d.posterUri
          || AddPosterUri(d).cloudStorageObject != d.cloudStorageObject
    ensures ShouldFetchPrevious(key, d)
  {
  }

  /** The cleanup tests `file` for being defined where addPosterUri tests it
      for truthiness: with `file: null` the stored image is looked up (and
      deleted, if any) while addPosterUri leaves the poster properties as
      they came in. */
  lemma NullFileCleansUpWithoutRewrite(key: PostKey, d: EntityData)
    requires IdTruthy(key.id) && d.file == Null && d.posterUri != Null
    ensures ShouldFetchPrevious(key, d)
    ensures AddPosterUri(d) == d
  {
  }

  /** A save of a new entity never consults the store. */
  lemma NewEntityNeverFetches(key: PostKey, d: EntityData)
    requires !IdTruthy(key.id)
    ensures !ShouldFetchPrevious(key, d)
  {
  }

  /** Deleting the comments of a post twice is deleting them once. */
  lemma CascadeIdempotent(comments: map<nat, Comment>, id: nat)
    ensures CommentsAfterCascade(CommentsAfterCascade(comments, id), id) == CommentsAfterCascade(comments, id)
  {
  }

  /** Deleting a post together with its comments leaves no orphan comment. */
  lemma DeleteKeepsNoOrphans(posts: map<nat, EntityData>, comments: map<nat, Comment>, id: nat)
    requires NoOrphans(posts, comments)
    ensures NoOrphans(posts - {id}, CommentsAfterCascade(comments, id))
  {
  }
}
