/** The shapes the client exchanges with its hosted backend: table rows as the
    client reads them, the `{ data, error }` reply every store call resolves
    to, update payloads, and the user-visible effects of a handler (alerts
    and the callbacks a parent passes in). The backend itself is not modelled:
    its reply to each call is an input of the handler that makes the call. */
module Backend {
  import opened JsText

  /** The free-form `investor_details` / `mentor_details` object the setup forms fill in. */
  datatype Details = Details(
    org_name: Option<string>,
    location: Option<string>,
    website: Option<string>,
    focus: Option<string>,
    description: Option<string>,
    email: Option<string>,
    phone: Option<string>)

  /** `{}` */
  const NoDetails := Details(None, None, None, None, None, None, None)

  /** `details || {}`, and also what `details?.field` reads when `details` is null. */
  function OrEmpty(d: Option<Details>): Details {
    if d.Some? then d.value else NoDetails
  }

  /** The keys of the details object that a form input writes. */
  datatype DetailField = OrgName | Location | Website | Focus | Description | Email | Phone

  /** `details[field]` */
  function FieldOf(d: Details, field: DetailField): Option<string> {
    match field
    case OrgName => d.org_name
    case Location => d.location
    case Website => d.website
    case Focus => d.focus
    case Description => d.description
    case Email => d.email
    case Phone => d.phone
  }

  /** `{...details, [field]: value}`: that key holds the typed text, every other key is kept. */
  function WithField(d: Details, field: DetailField, value: string): (r: Details)
    ensures FieldOf(r, field) == Some(value)
    ensures forall other :: other != field ==> FieldOf(r, other) == FieldOf(d, other)
  {
    match field
    case OrgName => d.(org_name := Some(value))
    case Location => d.(location := Some(value))
    case Website => d.(website := Some(value))
    case Focus => d.(focus := Some(value))
    case Description => d.(description := Some(value))
    case Email => d.(email := Some(value))
    case Phone => d.(phone := Some(value))
  }

  /** A row of the `profiles` table. A null `is_investor_listed` is read as false: the
      client only ever tests it for truthiness. */
  datatype ProfileRow = ProfileRow(
    id: string,
    role: Option<string>,
    full_name: Option<string>,
    avatar_url: Option<string>,
    email: Option<string>,
    phone: Option<string>,
    website: Option<string>,
    linkedin: Option<string>,
    investor_type: Option<string>,
    investor_details: Option<Details>,
    mentor_type: Option<string>,
    mentor_details: Option<Details>,
    is_investor_listed: bool)

  /** `{ id: user.id }`: the stand-in profile of a user who has no row yet. */
  function BareProfile(id: string): ProfileRow {
    ProfileRow(id, None, None, None, None, None, None, None, None, None, None, None, false)
  }

  /** The joined `profiles(full_name, avatar_url)` of a submission's author. */
  datatype Submitter = Submitter(full_name: Option<string>, avatar_url: Option<string>)

  /** A row of the `submissions` table. */
  datatype SubmissionRow = SubmissionRow(
    id: string,
    user_id: string,
    submission_type: Option<string>,
    title: Option<string>,
    description: Option<string>,
    status: Option<string>,
    profiles: Option<Submitter>)

  /** A row of the `creator_videos` table. */
  datatype VideoRow = VideoRow(
    id: string,
    user_id: string,
    title: Option<string>,
    video_path: string,
    thumbnail_path: Option<string>)

  /** What a store call resolves to: `{ data, error }`. */
  datatype StoreError = StoreError(code: string, message: string)
  datatype Reply<T> = Reply(data: Option<T>, error: Option<StoreError>)

  /** One key of an update payload: left out, set to `null`, or set to a value. */
  datatype Field<T> = Absent | Null | Put(value: T)

  /** A `profiles` update payload, key by key. */
  datatype ProfilePatch = ProfilePatch(
    role: Field<string>,
    investor_type: Field<string>,
    investor_details: Field<Details>,
    mentor_type: Field<string>,
    mentor_details: Field<Details>,
    is_investor_listed: Field<bool>)

  /** `.from('profiles').update(patch).eq('id', id)` */
  datatype ProfileUpdate = ProfileUpdate(id: string, patch: ProfilePatch)

  /** A `submissions` insert payload. */
  datatype SubmissionInsert = SubmissionInsert(
    user_id: string,
    submission_type: string,
    title: string,
    description: string,
    status: string)

  /** The insert both startup forms send: the user's own submission of the given kind,
      published at once. */
  function NewSubmission(userId: string, kind: string, title: string, description: string): (row: SubmissionInsert)
    ensures row.user_id == userId && row.submission_type == kind && row.status == "approved"
    ensures row.title == title && row.description == description
  {
    SubmissionInsert(userId, kind, title, description, "approved")
  }

  /** What a handler does that the user or the parent component sees. */
  datatype Effect =
    | Alert(text: string)
    | CallOnSave
    | CallOnClose
    | CallOnUpload

  /** The effects of a write whose reply carries no data: the store's message on error,
      otherwise the success message followed by the given callbacks. */
  function AfterWrite(error: Option<StoreError>, success: string, callbacks: seq<Effect>): seq<Effect> {
    if error.Some? then [Alert(error.value.message)] else [Alert(success)] + callbacks
  }
}
