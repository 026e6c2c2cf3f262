/** The upsert workflow for an anonymous review: reviews already stored for the
    same product and e-mail are looked up; when one exists it is updated,
    otherwise a new review is created. Both payloads are built here; the lookup and
    the create and update sub-workflows are inputs and outputs of this model. */
module UpsertReview {
  import opened Common

  datatype Status = Pending | Approved | Flagged

  /** One uploaded file of the request: its storage key and MIME type. */
  datatype MediaInput = MediaInput(key: string, mimeType: string)

  /** One image row to store with the review. */
  datatype ImageInput = ImageInput(url: string, mimeType: string)

  datatype UpsertInput = UpsertInput(
    productId: string,
    title: string,
    fullName: string,
    email: string,
    rating: int,
    content: string,
    media: seq<MediaInput>)

  /** A review found for the same product and e-mail (the fields the lookup asks for). */
  datatype ExistingReview = ExistingReview(id: string, status: Status, verified: bool)

  datatype CreatePayload = CreatePayload(
    productId: string,
    name: string,
    email: string,
    title: string,
    rating: int,
    content: string,
    status: Status,
    verified: bool,
    images: seq<ImageInput>)

  /** The update payload has no product, e-mail, name or verified field: an update
      cannot change them. */
  datatype UpdatePayload = UpdatePayload(
    id: string,
    title: string,
    rating: int,
    content: string,
    status: Status,
    images: seq<ImageInput>)

  /** `reviewData`: the action and its payload. */
  datatype ReviewData = Create(create: CreatePayload) | Update(update: UpdatePayload)

  /** `media.map(m => ({ url: m.key, type: m.type }))`. */
  function ImagesOf(media: seq<MediaInput>): (images: seq<ImageInput>)
    ensures |images| == |media|
    ensures forall k :: 0 <= k < |media| ==> images[k].url == media[k].key && images[k].mimeType == media[k].mimeType
  {
    if media == [] then [] else [ImageInput(media[0].key, media[0].mimeType)] + ImagesOf(media[1..])
  }

  /** The reverse mapping, from stored image rows back to uploaded files. */
  function MediaOf(images: seq<ImageInput>): (media: seq<MediaInput>)
    ensures |media| == |images|
  {
    if images == [] then [] else [MediaInput(images[0].url, images[0].mimeType)] + MediaOf(images[1..])
  }

  /** No upload is lost, reordered or altered on the way to the image rows. */
  lemma {:induction false} ImagesOfRoundTrip(media: seq<MediaInput>)
    ensures MediaOf(ImagesOf(media)) == media
  {
    if media != [] {
      ImagesOfRoundTrip(media[1..]);
    }
  }

  /** The first transform: update the first review found, else create one. Either
      way the review goes back to "pending"; a new review starts unverified. */
  function Decide(existing: Option<seq<ExistingReview>>, input: UpsertInput): (d: ReviewData)
    ensures d.Update? <==> existing.Some? && existing.value != []
    ensures d.Update? ==> d.update.id == existing.value[0].id
    ensures d.Create? ==>
              && d.create.productId == input.productId && d.create.name == input.fullName
              && d.create.email == input.email && d.create.verified == false
    ensures match d
            case Create(c) => c.title == input.title && c.rating == input.rating && c.content == input.content
                              && c.status == Pending && MediaOf(c.images) == input.media
            case Update(u) => u.title == input.title && u.rating == input.rating && u.content == input.content
                              && u.status == Pending && MediaOf(u.images) == input.media
  {
    var images := ImagesOf(input.media);
    ImagesOfRoundTrip(input.media);
    if existing.Some? && existing.value != [] then
      Update(UpdatePayload(existing.value[0].id, input.title, input.rating, input.content, Pending, images))
    else
      Create(CreatePayload(input.productId, input.fullName, input.email, input.title, input.rating,
                           input.content, Pending, false, images))
  }

  /** `createData`: the payload in a one-element list on create, else empty. */
  function CreateData(d: ReviewData): (r: seq<CreatePayload>)
    ensures d.Create? ==> r == [d.create]
    ensures !d.Create? ==> r == []
  {
    if d.Create? then [d.create] else []
  }

  /** `updateData`: the payload in a one-element list on update, else empty. */
  function UpdateData(d: ReviewData): (r: seq<UpdatePayload>)
    ensures d.Update? ==> r == [d.update]
    ensures !d.Update? ==> r == []
  {
    if d.Update? then [d.update] else []
  }

  /** Exactly one of the two sub-workflows receives a payload: a single one, the
      payload the decision built. */
  lemma {:induction false} ExactlyOneSubWorkflow(existing: Option<seq<ExistingReview>>, input: UpsertInput)
    ensures var d := Decide(existing, input);
            && |CreateData(d)| + |UpdateData(d)| == 1
            && (CreateData(d) != [] <==> existing.None? || existing.value == [])
            && (UpdateData(d) != [] ==> UpdateData(d)[0].id == existing.value[0].id)
            && (CreateData(d) != [] ==> CreateData(d)[0].email == input.email && !CreateData(d)[0].verified)
  {
    var d := Decide(existing, input);
    assert d.Create? || d.Update?;
  }

  /** `list?.[0]`. */
  function First<T>(list: Option<seq<T>>): Option<T>
  {
    if list.Some? && list.value != [] then Some(list.value[0]) else None
  }

  /** The workflow's result: the first review the create sub-workflow returned on
      create, otherwise the first one the update sub-workflow returned. A
      sub-workflow that did not run has no result (`None`). */
  function WorkflowResult<T>(d: ReviewData, createResult: Option<seq<T>>, updateResult: Option<seq<T>>)
    : (r: Option<T>)
    ensures d.Create? && createResult.Some? && createResult.value != [] ==> r == Some(createResult.value[0])
    ensures d.Update? && updateResult.Some? && updateResult.value != [] ==> r == Some(updateResult.value[0])
    ensures d.Create? && (createResult.None? || createResult.value == []) ==> r.None?
    ensures d.Update? && (updateResult.None? || updateResult.value == []) ==> r.None?
  {
    if d.Create? then First(createResult) else First(updateResult)
  }

  /** The whole workflow once the lookup and the sub-workflows are given: the
      result never comes from the sub-workflow of the other action. */
  function Upsert<T>(existing: Option<seq<ExistingReview>>, input: UpsertInput,
                     createResult: Option<seq<T>>, updateResult: Option<seq<T>>): (r: Option<T>)
    ensures (existing.Some? && existing.value != []) ==> r == First(updateResult)
    ensures (existing.None? || existing.value == []) ==> r == First(createResult)
  {
    WorkflowResult(Decide(existing, input), createResult, updateResult)
  }
}
