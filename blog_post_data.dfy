/** The BlogPost record and the pure save-time transform of
    blog-post.model.js: addPosterUri, sanitize and createExcerpt, chained
    by ramda's compose. */
module BlogPostData {
  import opened Js
  import Ramda

  /** The upload attached to a save request by the image middleware. */
  datatype UploadedFile = UploadedFile(cloudStoragePublicUrl: Js<string>, cloudStorageObject: Js<string>)

  /** The entity data of a BlogPost: the schema properties and the
      transient `file` property of an upload. Timestamps are kept as
      opaque integers. */
  datatype EntityData = EntityData(
    title: Js<string>,
    createdOn: Js<int>,
    modifiedOn: Js<int>,
    content: Js<string>,
    excerpt: Js<string>,
    posterUri: Js<string>,
    cloudStorageObject: Js<string>,
    file: Js<UploadedFile>)

  /** The collaborators whose code is not part of this model:
      gstore's `Model.sanitize` and `stringHelpers.createExcerpt`. */
  datatype Collaborators = Collaborators(
    sanitize: EntityData -> EntityData,
    excerptOf: Js<string> -> Js<string>)

  /** `r` equals `d` on every property except posterUri and cloudStorageObject. */
  predicate SameExceptPoster(d: EntityData, r: EntityData)
  {
    r.(posterUri := d.posterUri, cloudStorageObject := d.cloudStorageObject) == d
  }

  /** `r` equals `d` on every property except excerpt. */
  predicate SameExceptExcerpt(d: EntityData, r: EntityData)
  {
    r.(excerpt := d.excerpt) == d
  }

  /** An attached file (an object, hence truthy) sets the poster URI and the
      storage object from the upload, each falling back to null; otherwise an
      explicitly null poster URI also clears the storage object; otherwise
      the data is returned as it is. */
  function AddPosterUri(d: EntityData): (r: EntityData)
    ensures SameExceptPoster(d, r)
    ensures d.file.Val? ==>
              && r.posterUri == OrNull(d.file.v.cloudStoragePublicUrl)
              && r.cloudStorageObject == OrNull(d.file.v.cloudStorageObject)
    ensures !d.file.Val? && d.posterUri == Null ==> r.posterUri == Null && r.cloudStorageObject == Null
    ensures !d.file.Val? && d.posterUri != Null ==> r == d
  {
    if d.file.Val? then
      d.(posterUri := OrNull(d.file.v.cloudStoragePublicUrl),
         cloudStorageObject := OrNull(d.file.v.cloudStorageObject))
    else if d.posterUri == Null then
      d.(cloudStorageObject := Null)
    else
      d
  }

  /** The excerpt is derived from the content and nothing else changes. */
  function CreateExcerpt(excerptOf: Js<string> -> Js<string>, d: EntityData): (r: EntityData)
    ensures SameExceptExcerpt(d, r)
    ensures r.content == d.content && r.excerpt == excerptOf(r.content)
  {
    d.(excerpt := excerptOf(d.content))
  }

  /** The new entity data of a save, `R.compose(createExcerpt, sanitize,
      addPosterUri)` applied to it: addPosterUri runs first, then sanitize,
      then createExcerpt. */
  function PrepareEntityData(h: Collaborators, d: EntityData): (r: EntityData)
    ensures r == CreateExcerpt(h.excerptOf, h.sanitize(AddPosterUri(d)))
    ensures SameExceptExcerpt(h.sanitize(AddPosterUri(d)), r)
    ensures r.excerpt == h.excerptOf(h.sanitize(AddPosterUri(d)).content)
  {
    var createExcerpt := (x: EntityData) => CreateExcerpt(h.excerptOf, x);
    Ramda.ComposeThree(createExcerpt, h.sanitize, AddPosterUri, d);
    Ramda.Compose([createExcerpt, h.sanitize, AddPosterUri], d)
  }

  /** Once the poster properties are set, setting them again changes nothing. */
  lemma AddPosterUriIdempotent(d: EntityData)
    ensures AddPosterUri(AddPosterUri(d)) == AddPosterUri(d)
  {
  }

  /** A file attached to the data wins over an explicitly null poster URI. */
  lemma FileWinsOverNullPoster(d: EntityData)
    requires d.file.Val? && d.posterUri == Null
    requires StrTruthy(d.file.v.cloudStoragePublicUrl)
    ensures AddPosterUri(d).posterUri == d.file.v.cloudStoragePublicUrl
  {
  }

  /** After addPosterUri a null poster URI comes with a null storage object,
      unless the attached upload has no public URL. */
  lemma NullPosterHasNoObject(d: EntityData)
    requires !(d.file.Val? && !StrTruthy(d.file.v.cloudStoragePublicUrl))
    ensures AddPosterUri(d).posterUri == Null ==> AddPosterUri(d).cloudStorageObject == Null
  {
  }

  /** The excerpt depends only on the content. */
  lemma ExcerptDependsOnlyOnContent(excerptOf: Js<string> -> Js<string>, d1: EntityData, d2: EntityData)
    requires d1.content == d2.content
    ensures CreateExcerpt(excerptOf, d1).excerpt == CreateExcerpt(excerptOf, d2).excerpt
  {
  }

  /** Creating the excerpt twice is creating it once. */
  lemma CreateExcerptIdempotent(excerptOf: Js<string> -> Js<string>, d: EntityData)
    ensures CreateExcerpt(excerptOf, CreateExcerpt(excerptOf, d)) == CreateExcerpt(excerptOf, d)
  {
  }
}
