# Sprezox web client — a Dafny model of its client-side logic

Sprezox is a React single-page application over a hosted Postgres/storage
backend. Students and entrepreneurs publish ideas, creators upload videos,
and investors and mentors list themselves in a public directory. The logic
that lives in the browser is modelled here:

- the directory pages. The network page turns listed profile rows into
  investor and mentor cards. The ideas page lists approved submissions. Both
  run a case-insensitive search and a category filter over the rows, and show
  per-category totals and a "Showing X of Y" line;
- the profile page's state machine over `profile`, `loading` and
  `currentView`, moved by the profile fetch, role selection and the "Go Back"
  buttons. It also holds the startup dashboard's list of the user's own
  submissions;
- the listing and submission forms. These are the mentor and investor setup
  forms and the student and startup forms. Each has its required-field checks
  (JavaScript truthiness, no trimming). The mentor form also has an email and
  a phone pattern. Each form sends one exact update or insert payload;
- the creator upload and delete flow. Storage paths are built from the user
  id, the clock and the file extension. The upload runs three store calls in
  order and stops at the first failure. A delete removes the row first, then
  the files, then the entry on screen, and rebuilds the thumbnail's path from
  its public URL;
- the directory card and its detail modal: default texts, the placeholder
  avatar, and the focus text split into trimmed tags.

The backend itself is not modelled. Each handler takes the store's reply
(`{ data, error }`) as a parameter. It returns the request it issued (or
nothing when it stops before the store) and the effects the user or the
parent component sees: alerts and the `onSave`, `onClose` and `onUpload`
callbacks. `window.confirm` is a boolean parameter, `Date.now()` a number
parameter (the upload form reads the clock twice, so it takes two), and the
signed-in user an id parameter. `getPublicUrl` is the bucket's public address
followed by the path, passed through `encodeURI`.

Modules, one per source file, plus shared ones:

- `JsText`: JavaScript string behaviour (truthiness, `||` fallbacks, ASCII
  `toLowerCase`, `includes`, `split`, `split(c).pop()`, `trim`, `\s`
  removal, decimal rendering).
- `Seqs`: `Array.prototype.filter` and removal by id.
- `Backend`: row shapes, replies, update payloads, effects.
- `Directory`: the shared search and filter test.
- `NetworkPage`, `IdeasPage`, `ProfilePage`, `MentorSetupForm`,
  `InvestorSetupForm`, `StudentForm`, `EntrepreneurForm`, `UploadForm`,
  `CreatorDashboard`, `InvestorDetailModal`, `ProfileCard`: the source files.
- `ListingLifecycle`: how a saved or un-listed profile then appears on the
  profile page, in the directory and in the modal.

## Model

| member | source | states |
|---|---|---|
| NetworkPage.GetCardProps | src/pages/NetworkPage.jsx:39-61 | a card exists exactly for investor and mentor rows; it keeps the row and its role, has a non-empty name and the row's avatar |
| NetworkPage.CardFields | src/pages/NetworkPage.jsx:40-59 | the label is Venture Capital iff `investor_type === 'vc'`, else Angel Investor (so accelerator and incubator investors are angel investors); for mentors it is Accelerator iff `mentor_type === 'accelerator'`, else Incubator; the name is org name, else full name, else the role's placeholder; description and focus come from the card role's own details |
| NetworkPage.AllProfiles | src/pages/NetworkPage.jsx:69 | one card per investor or mentor row, in row order; each card is the one `getCardProps` builds for its row |
| NetworkPage.CardsAreInvestorsOrMentors | src/pages/NetworkPage.jsx:69 | every card on the page has role investor or mentor |
| NetworkPage.SearchMeaning | src/pages/NetworkPage.jsx:75-86 | the empty search matches every card; otherwise a card matches iff the lower-cased query occurs in its lower-cased name, description or focus, and a missing field never matches; visibility is search AND (filter `all` or the card's role) |
| NetworkPage.FilteredProfiles | src/pages/NetworkPage.jsx:72-88 | no more cards than in all; every shown card is a card that passes search and role filter, and every passing card is shown |
| NetworkPage.FilteredIsStableSelection | src/pages/NetworkPage.jsx:72-88 | the filtered cards are exactly the visible cards, as an order-preserving subsequence of all cards, so never more than the total |
| NetworkPage.Counts | src/pages/NetworkPage.jsx:170-182 | All is the number of cards, Investors the number of cards with role `investor`, Mentors the number with role `mentor`, all over the unfiltered cards whatever the search and filter; Investors + Mentors = All |
| NetworkPage.ButtonTotalsMatchShown | src/pages/NetworkPage.jsx:170-182 | with an empty search, choosing the All, Investors or Mentors button shows exactly as many cards as that button's total |
| NetworkPage.ResultsLine | src/pages/NetworkPage.jsx:188-196 | the "Showing X of Y" line appears iff loading is over; X is the number of cards passing the search and role filter, Y the number of all cards (the All total), and X ≤ Y |
| NetworkPage.GridOf | src/pages/NetworkPage.jsx:206-256 | spinner iff loading; cards exactly when some card passes the filters, and then the filtered list |
| NetworkPage.ClearedShowsAll | src/pages/NetworkPage.jsx:245-248 | after "Clear all filters" the filtered list equals all cards |
| NetworkPage.EmptyStatesTellTheTruth | src/pages/NetworkPage.jsx:221-256 | "nobody has listed yet" appears only when there is no card at all; "No profiles found" only when a search or role filter is active; conversely, once loaded with no card passing, "No profiles found" appears iff a search or filter is active, and with neither active "nobody has listed yet" appears iff there is no card |
| IdeasPage.SearchMeaning | src/pages/IdeasPage.jsx:38-49 | the empty search matches every submission; otherwise a submission matches iff the lower-cased query occurs in its title, description or author name, missing fields never match; visibility is search AND (filter `all` or the exact type) |
| IdeasPage.FilteredSubmissions | src/pages/IdeasPage.jsx:35-51 | no more than the submissions; every shown one passes search and type filter, and every passing one is shown |
| IdeasPage.FilteredIsStableSelection | src/pages/IdeasPage.jsx:35-51 | the filtered submissions are exactly the visible ones, as an order-preserving subsequence, never more than `submissions.length` |
| IdeasPage.Counts | src/pages/IdeasPage.jsx:132-144 | All Ideas is the number of submissions, Student Projects the number of type `student`, Startups the number of type `entrepreneur`, over the unfiltered list; the two type totals sum to at most All |
| IdeasPage.ButtonTotalsMatchShown | src/pages/IdeasPage.jsx:132-144 | with an empty search, choosing the All Ideas, Student Projects or Startups button lists exactly as many submissions as that button's total |
| IdeasPage.ClearedShowsAll | src/pages/IdeasPage.jsx:204-207 | after "Clear all filters" the visible list equals the submissions |
| IdeasPage.TypeLabel | src/features/ideas/IdeaCard.jsx:7 | an idea card reads Student Idea iff the type is `student`, and Startup otherwise |
| Directory.FieldHitMeaning | src/pages/NetworkPage.jsx:77-79 | `field?.toLowerCase().includes(q.toLowerCase())` holds iff the lower-cased query occurs at some offset of the lower-cased field |
| Directory.FieldHitIgnoresCase | src/pages/IdeasPage.jsx:40-42 | the query's capitalisation never changes which fields match |
| ProfilePage.RenderContent | src/pages/ProfilePage.jsx:239-377 | spinner iff loading, whatever the view; the creator and startup workspaces for their views; investor and mentor show their setup form iff the profile is not listed, else their workspace; any other view shows role selection, the same as `select_role` |
| ProfilePage.SharedListingGate | src/pages/ProfilePage.jsx:277-321 | the single `is_investor_listed` flag gates both roles: the investor setup shows iff the mentor setup shows, and a listed profile opens both workspaces |
| ProfilePage.LandingView | src/pages/ProfilePage.jsx:212 | a loaded row opens its role when the role is truthy, else `select_role` |
| ProfilePage.LandingScreen | src/pages/ProfilePage.jsx:210-216 | a fetched row without a role (and a new user's bare profile) lands on role selection; a listed investor or mentor on the workspace, an unlisted one on the setup form |
| ProfilePage.ProfileView.constructor | src/pages/ProfilePage.jsx:190-197 | the page starts with no profile, loading, view `loading`, showing the spinner |
| ProfilePage.ProfileView.FetchProfile | src/pages/ProfilePage.jsx:199-218 | no user: nothing happens; an error other than PGRST116 keeps profile and view; a row sets profile and its landing view; no row sets `{ id }` and `select_role`; loading always ends false |
| ProfilePage.ProfileView.HandleRoleSelect | src/pages/ProfilePage.jsx:224-237 | upserts `{ id, role }`; success sets profile to the returned row and the view to the role; an error alerts its message and changes nothing |
| ProfilePage.ProfileView.GoBack | src/pages/ProfilePage.jsx:271 | "Go Back" sets the view to `select_role`, changes nothing else, and then role selection shows |
| ProfilePage.StartupDashboard.constructor | src/pages/ProfilePage.jsx:71-72 | the submission list starts empty and loading |
| ProfilePage.StartupDashboard.FetchSubmissions | src/pages/ProfilePage.jsx:74-86 | no user: nothing happens; an error keeps the list; a null `data` becomes the empty list; loading ends false |
| ProfilePage.StartupDashboard.HandleDelete | src/pages/ProfilePage.jsx:92-102 | a cancelled confirm does nothing; a store error alerts and keeps the list; success removes the entries with that id and alerts |
| ProfilePage.DeleteRemovesExactly | src/pages/ProfilePage.jsx:99 | after a delete no entry has that id, every other entry is still listed in order, and nothing new appears |
| Seqs.WithoutRemovesExactly | src/features/creator/CreatorDashboard.jsx:65 | `filter(x => x.id !== id)` keeps exactly the other entries in order; a list without that id is unchanged |
| Seqs.FilterIsOrderedSelection | src/pages/NetworkPage.jsx:73 | `filter` lists exactly the passing positions, in increasing order |
| Seqs.FilterSameTest | src/pages/NetworkPage.jsx:176-182 | filtering by two tests that agree on every element gives the same list |
| Seqs.CountSplit | src/pages/NetworkPage.jsx:176-182 | counts by two exclusive tests add up to at most the total, and to the total when every element passes one |
| MentorSetupForm.EmailMeaning | src/features/Mentor/MentorSetupForm.jsx:24-28 | the email pattern accepts exactly the strings with no whitespace, exactly one `@`, not first, and after it a `.` with text on both sides |
| MentorSetupForm.AcceptedPhoneShape | src/features/Mentor/MentorSetupForm.jsx:31-32 | every phone text the pattern accepts has 10 to 12 digits, with `+` only in first position |
| MentorSetupForm.PlainDigitsAccepted | src/features/Mentor/MentorSetupForm.jsx:31 | a plain run of 10 to 12 digits is accepted |
| MentorSetupForm.CheckMentor | src/features/Mentor/MentorSetupForm.jsx:18-35 | required (org name, focus, email, phone truthy), then email, then phone with whitespace removed; the first failing check is the verdict |
| MentorSetupForm.CheckIgnoresOtherFields | src/features/Mentor/MentorSetupForm.jsx:18 | description, location and website never change `handleSave`'s own verdict, and a name made of a space counts as filled in for it |
| JsText.StripSpaces | src/features/Mentor/MentorSetupForm.jsx:32 | `replace(/\s/g, '')` keeps exactly the non-whitespace characters, in their order |
| JsText.StripSpacesKeepsClean | src/features/Mentor/MentorSetupForm.jsx:32 | a phone with no whitespace reaches the regex unchanged |
| MentorSetupForm.ListingPatch | src/features/Mentor/MentorSetupForm.jsx:40-45 | a save sends role mentor, the chosen type, the form data and the listing flag true, and no investor keys |
| MentorSetupForm.UnlistPatch | src/features/Mentor/MentorSetupForm.jsx:65-69 | un-listing sends the flag false and nulls the mentor type and details, leaving the role out |
| MentorSetupForm.MentorForm.constructor | src/features/Mentor/MentorSetupForm.jsx:9-12 | the type starts as the profile's `mentor_type` or `accelerator`, the data as its `mentor_details` or `{}`; the un-list button shows only for a listed profile (line 206) |
| MentorSetupForm.MentorForm.ChooseType | src/features/Mentor/MentorSetupForm.jsx:97-104 | the Accelerator and Incubator buttons set the type and nothing else |
| MentorSetupForm.MentorForm.Edit | src/features/Mentor/MentorSetupForm.jsx:120-193 | each input's `onChange` replaces the details with `{...formData, key: text}` for its own key, and changes nothing else |
| MentorSetupForm.MentorForm.HandleSave | src/features/Mentor/MentorSetupForm.jsx:14-56 | the store is called iff every check passes; a failed check alerts its message; the update is the listing patch; `onSave` and `onClose` run only without a store error |
| MentorSetupForm.MentorForm.HandleDelete | src/features/Mentor/MentorSetupForm.jsx:58-80 | a cancelled confirm does nothing; otherwise the un-list update is sent and the callbacks run only without a store error |
| InvestorSetupForm.RequiredFieldsOnly | src/features/investor/InvestorSetupForm.jsx:14 | only org name, focus and description are required, by truthiness: spaces pass, empty or missing fails |
| InvestorSetupForm.ListingPatch | src/features/investor/InvestorSetupForm.jsx:21-26 | a save sends role investor, the type, the form data and the listing flag true, and no mentor keys |
| InvestorSetupForm.InvestorForm.constructor | src/features/investor/InvestorSetupForm.jsx:8-10 | the type starts as `investor_type` or `vc`, the data as `investor_details` or `{}`, not loading |
| InvestorSetupForm.InvestorForm.ChooseType | src/features/investor/InvestorSetupForm.jsx:44-46 | the three type buttons set the type |
| InvestorSetupForm.InvestorForm.Edit | src/features/investor/InvestorSetupForm.jsx:51-67 | each of the five inputs (name, location, website, focus, description; there is no email or phone input) replaces the details with `{...formData, key: text}`, and changes nothing else |
| Backend.WithField | src/features/investor/InvestorSetupForm.jsx:51 | `{...details, key: text}` reads back the text at that key and keeps every other key |
| InvestorSetupForm.InvestorForm.HandleSave | src/features/investor/InvestorSetupForm.jsx:12-37 | the store is called iff the required fields are truthy; the update is the listing patch; the callbacks run only on success; otherwise only the loading flag moves |
| Backend.NewSubmission | src/features/startup/StudentForm.jsx:22-28 | the insert is the user's own submission of the given type with status `approved` |
| StudentForm.IdeaForm.constructor | src/features/startup/StudentForm.jsx:8-10 | the title and description start empty and the form is not loading |
| StudentForm.IdeaForm.Edit | src/features/startup/StudentForm.jsx:48-58 | the title and description inputs set exactly those two fields to the typed text (an edit of one input passes the other unchanged) |
| StudentForm.IdeaForm.HandleSubmit | src/features/startup/StudentForm.jsx:12-38 | an empty title or description alerts and inserts nothing; otherwise the `student` insert is sent, and `onSave` then `onClose` run only on success |
| EntrepreneurForm.StartupForm.constructor | src/features/startup/EntrepreneurForm.jsx:8-11 | empty name and description, stage `Idea`, not loading |
| EntrepreneurForm.StartupForm.Edit | src/features/startup/EntrepreneurForm.jsx:49-68 | the name input, the stage select and the description input set exactly those three fields to the chosen values |
| EntrepreneurForm.StartupForm.HandleSubmit | src/features/startup/EntrepreneurForm.jsx:13-39 | an empty name or description alerts and inserts nothing; otherwise the `entrepreneur` insert is sent without the stage, and the callbacks run only on success |
| UploadForm.ExtensionMeaning | src/features/creator/UploadForm.jsx:27-43 | the extension is the text after the last `.`, or the whole name when there is none |
| UploadForm.Extension | src/features/creator/UploadForm.jsx:27 | `split('.').pop()` holds no `.` and only characters of the file name |
| UploadForm.VideoPath | src/features/creator/UploadForm.jsx:28 | the video path starts with the user id and a `/` |
| UploadForm.ThumbPath | src/features/creator/UploadForm.jsx:44 | the thumbnail path starts with the user id and a `/` |
| UploadForm.PublicUrl | src/features/creator/UploadForm.jsx:38-47 | the public URL is the encoded bucket address followed by the encoded path, and the path itself when `encodeURI` keeps every character of it |
| UploadForm.PathShapes | src/features/creator/UploadForm.jsx:27-44 | both paths sit in the user's folder; `split('.').pop()` of either gives back the extension it was built from; a video path never equals a thumbnail path |
| UploadForm.Plan | src/features/creator/UploadForm.jsx:26-61 | the calls are video upload, then thumbnail upload (only with a thumbnail), then the insert; the row's `video_path` is the uploaded path, and `thumbnail_path` is null iff there is no thumbnail, else the thumbnail's public URL |
| UploadForm.Issued | src/features/creator/UploadForm.jsx:25-71 | the calls made are a prefix of the plan; the run goes on while calls succeed and stops right after the first failing call; with no failure, every call is made |
| UploadForm.FirstFailureAt | src/features/creator/UploadForm.jsx:29-63 | the position of the first failing call, with all earlier calls succeeding |
| UploadForm.FirstFailure | src/features/creator/UploadForm.jsx:69-71 | the `catch` sees an error iff some call failed |
| UploadForm.Upload.constructor | src/features/creator/UploadForm.jsx:9-15 | empty title and description, category `Tutorial`, no video or thumbnail file, not loading |
| UploadForm.Upload.Edit | src/features/creator/UploadForm.jsx:81-97 | the file pickers, the title and description inputs and the category select set exactly those five fields |
| UploadForm.Upload.HandleUpload | src/features/creator/UploadForm.jsx:17-75 | no video file, no title or no user: alert and no call; otherwise the issued calls of the plan, a failure alert with the first error's message, or success then `onUpload` and `onClose`; loading ends false |
| UploadForm.InsertOnlyAfterUploads | src/features/creator/UploadForm.jsx:37-63 | the insert is made only when every upload before it succeeded |
| CreatorDashboard.FilesToDelete | src/features/creator/CreatorDashboard.jsx:46-52 | the video path first, plus a path in the user's folder iff the thumbnail URL is truthy; so one or two files |
| CreatorDashboard.ThumbnailPathRecovered | src/features/creator/CreatorDashboard.jsx:49-51 | for a thumbnail file name without `/` whose extension `encodeURI` leaves alone, the user id plus the URL's last segment is the stored thumbnail path, whatever the bucket address |
| CreatorDashboard.SpacedThumbnailNotRecovered | src/features/creator/CreatorDashboard.jsx:49-51 | a thumbnail named with a space and no `.` is stored under a path with a space, but the URL's last segment has `%20`, so the rebuilt path is not the stored one |
| CreatorDashboard.DeleteRemovesUploadedFiles | src/features/creator/CreatorDashboard.jsx:46-57 | deleting a video removes exactly the files its upload stored, when the thumbnail's extension is left alone by `encodeURI` |
| CreatorDashboard.Dashboard.constructor | src/features/creator/CreatorDashboard.jsx:9-10 | the video list starts empty and loading |
| CreatorDashboard.Dashboard.FetchVideos | src/features/creator/CreatorDashboard.jsx:12-24 | no user: nothing; rows replace the list unless the reply is an error; loading ends false |
| CreatorDashboard.Dashboard.HandleDelete | src/features/creator/CreatorDashboard.jsx:31-71 | a cancelled confirm makes no call; a row-delete error alerts and removes no file and changes no list; otherwise the files are removed and the list loses that id whatever the storage error |
| CreatorDashboard.DeleteRemovesExactly | src/features/creator/CreatorDashboard.jsx:65 | after a delete no listed video has that id, every other one is listed in order |
| InvestorDetailModal.DetailOf | src/features/network/InvestorDetailModal.jsx:6 | no profile, no modal |
| InvestorDetailModal.Shown | src/features/network/InvestorDetailModal.jsx:47-77 | a contact line is rendered iff its value is truthy |
| InvestorDetailModal.DetailFields | src/features/network/InvestorDetailModal.jsx:9-79 | email, phone, website, description and focus come from `mentor_details` when truthy, else from the profile (for focus: a card focus of `""` gives one empty tag, a missing one no tags); the type is `mentor_type` if truthy, else the card's label; a missing description reads "No details provided."; "No contact information" iff no contact line is rendered |
| InvestorDetailModal.InvestorModalMatchesCard | src/features/network/InvestorDetailModal.jsx:20-40 | for an investor without mentor columns the modal's name, type, avatar and tags agree with the card for every focus, and the contacts are the row's own; the about text agrees only for a truthy description, otherwise the modal shows "No details provided." where the card shows "No description provided." |
| ProfileCard.FocusTags | src/features/network/ProfileCard.jsx:25 | a missing focus renders no tags; a present one one tag per comma plus one; no tag holds a comma |
| ProfileCard.TagsOfFocus | src/features/network/ProfileCard.jsx:25-27 | one tag per comma-separated piece, in order (commas + 1); the pieces join back into the focus; tag `i` is piece `i` trimmed, holds no comma and neither starts nor ends with whitespace |
| ProfileCard.TagsArePieces | src/features/network/InvestorDetailModal.jsx:38-40 | tag `i` is `pieces[i].trim()`, a stretch of the piece |
| ProfileCard.TrimmedPiece | src/features/network/InvestorDetailModal.jsx:39 | a trimmed tag is a stretch of its piece and holds no comma when the piece has none |
| ProfileCard.AvatarSrc | src/features/network/ProfileCard.jsx:14 | the avatar if truthy, else the placeholder URL ending in `text=` and the first character of the name: nothing for an empty name, `undefined` for a missing one |
| ProfileCard.Render | src/features/network/ProfileCard.jsx:14-27 | a falsy name shows Unnamed Profile, a falsy type Member, a falsy description "No description provided."; truthy ones are shown as given; the avatar and tags follow their rules; a missing focus gives no tags |
| ProfileCard.DirectoryCardsHaveNameAndType | src/pages/NetworkPage.jsx:222-227 | a directory card always shows its own name and type label, never the card's defaults |
| JsText.IncludesAt | src/pages/IdeasPage.jsx:40 | `includes` holds iff the text occurs at some offset |
| JsText.TrimShape | src/features/network/ProfileCard.jsx:26 | `trim` removes whitespace only, and only at the two ends |
| JsText.TrimIdempotent | src/features/network/ProfileCard.jsx:26 | a tag, once trimmed, has no outer whitespace left for a second `trim` to remove |
| JsText.JoinSplit | src/features/network/ProfileCard.jsx:25 | `split` then join gives the original text back |
| JsText.SplitJoin | src/features/network/ProfileCard.jsx:25 | joining separator-free pieces then splitting gives the pieces back |
| JsText.EncodeUriAppend | src/features/creator/UploadForm.jsx:47 | `encodeURI` works character by character, so it distributes over concatenation |
| JsText.EncodeUriChars | src/features/creator/UploadForm.jsx:47 | the encoded URL holds only characters `encodeURI` keeps and the `%` of escapes |
| JsText.LastPieceAfter | src/features/creator/CreatorDashboard.jsx:49-50 | the last piece after a separator is the text after the last separator |
| JsText.DecimalValue | src/features/creator/UploadForm.jsx:28 | the clock's decimal text reads back as the same number |
| ListingLifecycle.Apply | src/features/Mentor/MentorSetupForm.jsx:38-46 | each of role, the investor and mentor types and details is kept when the update leaves it out, nulled by `null` and set by a value; id, name, avatar and contact columns never change; the listing flag is kept, set, or false for `null` |
| ListingLifecycle.MentorSaveLists | src/features/Mentor/MentorSetupForm.jsx:38-46 | after a valid mentor save the profile opens the mentor workspace; the directory shows a mentor card under the org name, found by searching that name; the modal shows the form's email and phone |
| ListingLifecycle.InvestorSaveLists | src/features/investor/InvestorSetupForm.jsx:19-27 | after a valid investor save the profile opens the investor workspace, and the card carries the org name, description and focus, labelled Venture Capital iff the type is `vc` |
| ListingLifecycle.UnlistKeepsRole | src/features/Mentor/MentorSetupForm.jsx:63-70 | un-listing keeps the role and the investor columns, clears the flag and mentor columns, is idempotent, and sends a mentor back to the setup form |
| ListingLifecycle.SharedFlagCarriesOver | src/pages/ProfilePage.jsx:277 | a listed mentor who then picks the investor role lands in the investor workspace without filling in the investor form |

## Left out

- The store calls themselves (queries, upserts, inserts, storage upload and
  remove, `getPublicUrl`, auth). Each call's outcome is a parameter. The
  listing query at src/pages/NetworkPage.jsx:23-27 and the approved-ideas
  query at src/pages/IdeasPage.jsx:18-22 run on the server; their rows are
  inputs.
- The network and ideas pages' own fetch handlers (src/pages/NetworkPage.jsx:19-37,
  src/pages/IdeasPage.jsx:15-32). These only store the rows and clear
  `loading`. The modelled state is the rows and the flag.
- `console.error` logging, `alert` display and `window.confirm` dialogs. An
  alert is an effect value, a confirm a boolean parameter.
- Upload progress `(loaded / total) * 100` and `Math.round`: floating point.
- `toLowerCase` is modelled on ASCII letters only; full Unicode case mapping
  is not.
- ProfileCard.AvatarSrc: `charAt(0)` returns one UTF-16 code unit, so a name
  that starts with a character outside the Basic Multilingual Plane yields a
  lone surrogate; the model's strings are sequences of whole characters and
  take the whole first character.
- Auth and routing, the static and marketing pages, modal and header UI
  state, the animation props, and `ContentCard`'s display defaults.
- The form inputs' `onChange` handlers are modelled as `Edit(key, text)`
  (`{...formData, key: e.target.value}` for the input's own key) and the type
  buttons as `ChooseType`; each input's `value={formData.key || ''}`
  rendering is not modelled.
- A handler that runs with no signed-in user where the source reads
  `user.id` would throw. This covers the setup and startup forms, the
  profile page's role choice (`ProfilePage.ProfileView.HandleRoleSelect`,
  src/pages/ProfilePage.jsx:227) and the creator dashboard's delete. The dashboard reads `user.id` at
  src/features/creator/CreatorDashboard.jsx:51, after the row delete, where
  the throw would end in the "Failed to delete post" alert with the row
  already gone. The model takes the user id as given. The upload form tests
  `!user` first and is modelled with and without a user.
- The browser's own form validation is not modelled. It runs before
  `onSubmit` (src/features/Mentor/MentorSetupForm.jsx:83,
  src/features/investor/InvestorSetupForm.jsx:40) and can block a save the
  handler would send. It covers the `required` inputs (the mentor
  description at src/features/Mentor/MentorSetupForm.jsx:189 is required
  there but not checked by `handleSave`), `type="email"`
  (src/features/Mentor/MentorSetupForm.jsx:129), whose grammar differs from
  the email pattern, and `type="url"`
  (src/features/Mentor/MentorSetupForm.jsx:165,
  src/features/investor/InvestorSetupForm.jsx:59). The verdicts and requests
  here are those of the handlers alone.
- MentorSetupForm.CheckIgnoresOtherFields: states `handleSave`'s verdict
  only; the browser's checks above may still refuse the form.
- CreatorDashboard.ThumbnailPathRecovered: holds only for thumbnails whose
  extension `encodeURI` leaves unchanged. For other names the path rebuilt
  from the URL is not the stored one, as SpacedThumbnailNotRecovered shows.
- CreatorDashboard.DeleteRemovesUploadedFiles: under the same condition on
  the thumbnail's extension.
- `getPublicUrl` is modelled as the bucket's address, the path and
  `encodeURI`. The storage client library is not part of this model.
- CreatorDashboard.Dashboard.FetchVideos: a successful reply with null
  `data` (which `setVideos(data)` would store) is not modelled. The rows are
  a list.
- ProfilePage.ProfileView.HandleRoleSelect: the upsert's effect on the
  stored row is not modelled. The returned row is an input.
- Asynchrony: handlers run to completion one at a time. Interleaved
  handlers and stale state are not modelled.
