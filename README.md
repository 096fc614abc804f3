# Portfolio admin: projects CRUD, modelled in Dafny

This project models the admin side of a portfolio website. One operator logs in
with a password at `/add`. They can then add, edit and delete "project"
entries: a title, a description, a list of technology stacks, one tag, an
optional live-demo URL, a GitHub URL and an image. Each entry is stored as a
document in a hosted database, and its image as a blob in object storage. The
public projects grid renders the stored entries as cards.

The model has five modules.

- `JsStrings` (`js_strings.dfy`) holds the JavaScript string behaviour the flow
  relies on. It covers null-or-string values and `if (s)` truthiness. It
  defines `String.prototype.trim` with the full ECMAScript whitespace set, and
  `split(',')` and `join(',')`. Split is proved to be the unique cut of a
  string into comma-free pieces, and to undo Join.
- `Actions` (`actions.dfy`) models the server actions: login, listing, add,
  update, delete and the add/update dispatcher. The documents, blobs and
  cookies form one `Store` value. The clock, the document id the database
  assigns, the download URL of an upload, and every failure a provider call
  may raise are an `Env` value the caller supplies. Each action is a function
  from the old `Store` to a `Step` (the new `Store` and the result). Class
  `Backend` holds the store in fields that its methods update in place, and
  each method is proved to perform its function's step.
- `AddProjectForm` (`add_project_form.dfy`) models the add/edit form. The
  selected stacks are a list that can be toggled, typed into and pruned, and
  every one of those operations keeps the list free of duplicates when it was
  free of them before. The list a form starts from is the stored one, which
  need not be: a typed label holding a comma is stored as several labels, and
  one of them can repeat a label already selected
  (`CommaLabelStoresDuplicate`). The module also covers the single tag
  choice, the hidden fields the form posts, and what the form does with the
  action's result. Class `ProjectForm` holds the component's state.
- `AdminDashboard` (`admin_dashboard.dfy`) models the dashboard: the project
  table, the three dialogs, and the delete confirmation with its two checks
  and the button's enable condition. Class `Dashboard` holds the component's
  state.
- `ProjectList` (`project_list.dfy`) models the public grid: one card per
  project, and where its Live Demo and Code buttons lead.

Four behaviours of the code are easy to miss. The model states each one, within the limits given under "## Left out":

- An update overwrites `createdAt` with the current time
  (app/add/actions.ts:133, written by line 73). After an edit, `createdAt` is
  no longer the time the project was created (`UpdateStoresIdAsImageUrl`).
  The listing is sorted newest first, but its order is not modelled, so the
  model does not show where the edited project moves.
- An update passes the project's id, not its stored image URL, as the
  existing image reference (app/add/actions.ts:71). So an update without a
  new file stores the id as the image URL (line 109). An update with a new
  file tries to delete the blob named by the id (lines 111-114), and the
  project's real image blob stays in storage (`UpdateDeletesBlobKeyedById`).
- The dashboard's Delete button is enabled once the typed name matches the
  title and any password is typed (app/add/AdminDashboard.tsx:192). The
  password's value is compared only when the button is clicked, in
  `confirmDelete` (lines 56-59; `EnabledWithWrongPassword`).
- The upload and the document write are separate calls. When the upload has
  stored its blob and then `getDownloadURL` or the document write fails, the
  blob stays in storage with no project pointing at it
  (app/add/actions.ts:117-118 and 57; `UrlFailureOrphansUpload`,
  `AddOrphansUploadOnWriteFailure`).

## Model

| member | source | states |
|---|---|---|
| JsStrings.OrEmpty | app/add/actions.ts:109 | `s \|\| ''` is the string itself when it is non-empty, and '' for null or the empty string |
| JsStrings.Trim | app/add/actions.ts:128 | the trimmed string is a middle slice of the input with only whitespace before and after it, has no whitespace at either end, and a string already trimmed is returned unchanged |
| JsStrings.TrimIdempotent | app/add/actions.ts:128 | trimming twice is trimming once |
| JsStrings.TrimFixedPoint | app/add/actions.ts:128 | trim leaves a string unchanged exactly when neither end is whitespace |
| JsStrings.Split | app/add/actions.ts:128 | `split(',')` gives at least one piece, every piece is comma-free, and joining the pieces with ',' gives back the input |
| JsStrings.Join | app/add/AddProjectForm.tsx:78 | `join(',')` of no labels is the empty string; what a join of labels holds is stated by SplitJoin, which undoes it |
| JsStrings.SplitJoin | app/add/AddProjectForm.tsx:78 | splitting the comma-join of a non-empty list of comma-free labels gives the list back |
| JsStrings.SplitUnique | app/add/actions.ts:128 | any cut of a string into comma-free pieces that joins back to it is the one split returns |
| JsStrings.TrimAll | app/add/actions.ts:128 | `.map(s => s.trim())` keeps the length and trims each entry in place |
| Actions.GetErrorMessage | app/add/actions.ts:137-140 | a thrown Error yields its own message; any other thrown value yields "An unknown error occurred." |
| Actions.ParseList | app/add/actions.ts:128 | a null or empty field parses to no entries; otherwise there is one trimmed entry per comma-separated segment, empty segments kept |
| Actions.IsAdmin | app/add/page.tsx:11 | the admin page shows the dashboard exactly when the `admin-auth` cookie is present with the value "true" |
| Actions.HasNewImage | app/add/actions.ts:110 | only a file that is present and non-empty counts as a new image; an empty file is ignored |
| Actions.Shape | app/add/actions.ts:125-134 | the record holds the submitted title, description and demo URL, the parsed stacks and tags, the GitHub URL as submitted when it is non-blank and the placeholder otherwise (never blank), the given image URL and the current time |
| Actions.GithubUrlFor | app/add/actions.ts:121-123 | a blank GitHub field is stored as the "coming-soon" placeholder and a non-blank one unchanged; the stored value is the placeholder exactly when the field was blank or was the placeholder itself |
| Actions.ImageUrlFor | app/add/actions.ts:109-119 | with a non-empty file the image URL is the upload's download URL, otherwise it is the existing reference or '' |
| Actions.BestEffortDelete | app/add/actions.ts:87 | a blob delete removes at most the named blob, removes it unless the call fails, leaves the set exactly as it was when the call fails, and keeps every other blob |
| Actions.PrepareSpec | app/add/actions.ts:100-135 | preparing a record fails exactly when a non-empty file's `uploadBytes` or `getDownloadURL` fails, and then with that call's error; without a new file no blob changes; a blob `uploadBytes` stored exists afterwards, even if `getDownloadURL` failed; the existing reference is deleted unless that delete fails, and when it fails no blob is removed; the only blob that can appear is the upload's, and none appears when `uploadBytes` fails; no other blob is removed; a prepared record is Shape of the form with the chosen image URL and the current time |
| Actions.LoginSpec | app/add/actions.ts:21-33 | login succeeds exactly when the password equals the configured secret, an unset secret matching nothing; success sets `admin-auth=true` and changes nothing else; failure returns "Invalid password." and changes nothing; the admin gate of app/add/page.tsx:11 opens afterwards exactly when login succeeded or the cookie was already set |
| Actions.AddSpec | app/add/actions.ts:54-64 | an add succeeds exactly when the upload (if any) and the document write both succeed; success stores the prepared record under the fresh id the store assigns, keeping every stored project, and says "Project added successfully!"; the blob set is the one preparing the record leaves; a failure leaves the documents unchanged and reports the message of the upload's or the write's error |
| Actions.UpdateSpec | app/add/actions.ts:66-80 | a blank id fails with "Project ID is missing." and changes nothing; otherwise the update succeeds exactly when the upload (if any) and the write succeed and the document exists; success overwrites that one document with the record prepared with the id as the existing image reference; the blob set is the one preparing that record leaves; a failure leaves the documents unchanged and reports the message of the upload's error, the write's error or the missing document's error, in that order |
| Actions.DeleteSpec | app/add/actions.ts:82-97 | a delete succeeds with "Project deleted." and removes the document exactly when the document delete does not fail; the image blob, if any, goes by best effort; cookies are untouched |
| Actions.ProjectActionSpec | app/add/actions.ts:45-52 | the `action` field "add" runs the add (given a fresh store-assigned id), "update" runs the update, and anything else fails with "Invalid action." and changes nothing |
| Actions.BlobCleanupFailureSwallowed | app/add/actions.ts:87 | whether a blob delete fails (here and in prepareProjectData at line 114) changes neither the result nor the documents of a delete or an update |
| Actions.UpdateStoresIdAsImageUrl | app/add/actions.ts:71 | a successful update without a new file stores the project's id as its image URL, stamps createdAt with the current time and touches no blob |
| Actions.UpdateDeletesBlobKeyedById | app/add/actions.ts:111-118 | an update with a new file removes the blob keyed by the id and adds the upload; the project's current image blob stays |
| Actions.AddOrphansUploadOnWriteFailure | app/add/actions.ts:54-64 | an add whose upload succeeds and whose document write fails reports the write's error, stores no document and keeps the uploaded blob |
| Actions.UrlFailureOrphansUpload | app/add/actions.ts:117-118 | an add or update whose `uploadBytes` succeeds and whose `getDownloadURL` fails reports that error, changes no document and keeps the uploaded blob |
| Actions.AddStoresSubmittedFields | app/add/actions.ts:125-134 | after a successful add the new document holds the submitted title, description and demo URL, the parsed stacks and tags, the placeholder GitHub URL exactly when the field was blank or the placeholder, a non-blank GitHub URL exactly as submitted, and the upload's URL or '' as image |
| Actions.ListingExtend | app/add/actions.ts:40 | adding one stored document to a listing keeps every entry equal to its stored document and adds exactly its id |
| Actions.Backend.Login | app/add/actions.ts:21-33 | the login method performs LoginSpec's step on the backend's cookies |
| Actions.Backend.GetProjects | app/add/actions.ts:36-42 | the listing holds every stored id once, one entry per document, each with its stored fields |
| Actions.Backend.DeleteBlob | app/add/actions.ts:87 | the blob set afterwards is BestEffortDelete of the old one |
| Actions.Backend.Upload | app/add/actions.ts:116-118 | a failing `uploadBytes` throws its error and stores nothing; otherwise the blob is stored, and the call returns its download URL or throws `getDownloadURL`'s error |
| Actions.Backend.PrepareProjectData | app/add/actions.ts:100-135 | the method's result and new blob set are PrepareSpec's |
| Actions.Backend.AddProject | app/add/actions.ts:54-64 | the method performs AddSpec's step in place |
| Actions.Backend.UpdateProject | app/add/actions.ts:66-80 | the method performs UpdateSpec's step in place |
| Actions.Backend.DeleteProject | app/add/actions.ts:82-97 | the method performs DeleteSpec's step in place |
| Actions.Backend.ProjectAction | app/add/actions.ts:45-52 | the method performs ProjectActionSpec's step in place |
| AddProjectForm.Without | app/add/AddProjectForm.tsx:112 | filtering a label out leaves no copy of it, keeps every other label and never lengthens the list |
| AddProjectForm.WithoutAbsent | app/add/AddProjectForm.tsx:112 | filtering out a label that is not selected changes nothing |
| AddProjectForm.WithoutAt | app/add/AddProjectForm.tsx:112 | in a list without duplicates, removing a label deletes exactly its position and keeps the rest in order |
| AddProjectForm.WithoutConcat | app/add/AddProjectForm.tsx:98 | filtering distributes over concatenation |
| AddProjectForm.WithoutKeepsNoDuplicates | app/add/AddProjectForm.tsx:112 | removing a label keeps the selection free of duplicates |
| AddProjectForm.NoDuplicatesAppend | app/add/AddProjectForm.tsx:55-56 | appending a label not yet selected keeps the selection free of duplicates |
| AddProjectForm.Toggle | app/add/AddProjectForm.tsx:98 | choosing a predefined stack selects it exactly when it was not selected, appending it at the end; a selected stack is filtered out, which in a duplicate-free selection cuts out its one position and keeps the others in order; every other label's membership stays as it was |
| AddProjectForm.WithoutCutsOne | app/add/AddProjectForm.tsx:98 | filtering a selected label out of a duplicate-free selection cuts out exactly one position, the one holding it |
| AddProjectForm.ToggleTwiceRestores | app/add/AddProjectForm.tsx:98 | choosing an unselected stack twice restores the selection exactly |
| AddProjectForm.ToggleKeepsNoDuplicates | app/add/AddProjectForm.tsx:98 | toggling keeps the selection free of duplicates |
| AddProjectForm.AddTyped | app/add/AddProjectForm.tsx:54-56 | Enter appends the trimmed text when it is non-empty and not yet selected, leaves the selection otherwise, and keeps it free of duplicates |
| AddProjectForm.LabelsRoundTrip | app/add/AddProjectForm.tsx:78 | the comma-joined hidden field parses on the server back to the selection when every label is non-empty, comma-free and trimmed |
| AddProjectForm.CommaLabelStoresDuplicate | app/add/AddProjectForm.tsx:54-56 | with x selected, typing "x,y" passes the duplicate check, and the server stores the stacks x, x, y, which hold a duplicate |
| AddProjectForm.CommaInLabelSplitsIt | app/add/AddProjectForm.tsx:54-56 | a typed label holding a comma comes back from the server as two labels |
| AddProjectForm.PredefinedStackIsLabel | app/add/AddProjectForm.tsx:18-20 | each predefined stack is non-empty, comma-free and trimmed |
| AddProjectForm.PredefinedStacksAreLabels | app/add/AddProjectForm.tsx:18-20 | every predefined stack is a well-formed label, and the comma-joined list of all of them parses back to the list |
| AddProjectForm.TagOptionsAreLabels | app/add/AddProjectForm.tsx:126-128 | every tag option is a well-formed label, and the tags field holding one of them parses back to it |
| AddProjectForm.ExampleStacksField | app/add/actions.ts:128 | the field "React,Go,SQL" is stored as the three stacks React, Go and SQL |
| AddProjectForm.SubmissionOf | app/add/AddProjectForm.tsx:64-78 | the posted form says "update" and carries the id exactly when a project is being edited, else says "add"; title, description, demo URL and GitHub URL are posted as typed; the stacks and tags fields parse back to the selections when the labels are well formed; an untouched file input posts an empty file, which counts as no new image |
| AddProjectForm.EditWithoutFileStoresSelection | app/add/AddProjectForm.tsx:65 | editing a stored project without choosing a file succeeds, stores the selected stacks and tags, and stores the id as the image URL |
| AddProjectForm.ResultToast | app/add/AddProjectForm.tsx:41-49 | a success shows a success toast with its message; a failure with a non-empty error shows an error toast; a failure with an empty error shows nothing |
| AddProjectForm.ProjectForm.constructor | app/add/AddProjectForm.tsx:37-39 | the form starts with the edited project's stacks and tags, or none, and an empty search box |
| AddProjectForm.ProjectForm.SetCommandInput | app/add/AddProjectForm.tsx:91 | typing in the search box sets its text |
| AddProjectForm.ProjectForm.StackKeyDown | app/add/AddProjectForm.tsx:51-60 | Enter with text in the box applies AddTyped and clears the box; any other key, or an empty box, changes nothing; the selection stays free of duplicates |
| AddProjectForm.ProjectForm.SelectPredefined | app/add/AddProjectForm.tsx:98 | choosing a predefined stack toggles it, keeping the selection free of duplicates and made of well-formed labels |
| AddProjectForm.ProjectForm.RemoveBadge | app/add/AddProjectForm.tsx:112 | a badge's remove button filters that label out, keeping the selection free of duplicates |
| AddProjectForm.ProjectForm.SelectTag | app/add/AddProjectForm.tsx:123 | choosing one of the tag options makes it the only selected tag, and the tags field then parses back to it |
| AddProjectForm.ProjectForm.HandleResult | app/add/AddProjectForm.tsx:41-49 | a new result shows ResultToast's toast and closes the dialog exactly on success |
| AddProjectForm.ProjectForm.Submit | app/add/AddProjectForm.tsx:63-73 | given a fresh store-assigned id when adding, an empty title or description stops the submission, and nothing changes; otherwise the backend performs ProjectActionSpec's step on the posted form, and the result is handled as HandleResult does |
| AdminDashboard.DeleteGuard | app/add/AdminDashboard.tsx:51-59 | the delete proceeds exactly when a project is selected, the typed name equals its title and the password equals the configured one; a name mismatch is reported first, whatever the password |
| AdminDashboard.DeleteEnabled | app/add/AdminDashboard.tsx:192 | the Delete button is enabled only with a project selected and a non-empty password; a project stored without a title can never be deleted; an enabled button passes the guard whenever the typed password is the configured one |
| AdminDashboard.GuardImpliesEnabled | app/add/AdminDashboard.tsx:192 | whatever passes both checks finds the Delete button enabled, unless the configured password is empty |
| AdminDashboard.EnabledWithWrongPassword | app/add/AdminDashboard.tsx:192 | the button is enabled for a wrong but non-empty password, which confirmDelete then rejects as incorrect |
| AdminDashboard.StacksColumn | app/add/AdminDashboard.tsx:120-121 | the table shows the first four stacks in order, and adds the "..." badge exactly when there are more than four |
| AdminDashboard.RowFor | app/add/AdminDashboard.tsx:111-123 | a project's row is keyed by its id and shows its title, its tags and its stacks column, with at most four stack badges |
| AdminDashboard.ProjectRows | app/add/AdminDashboard.tsx:110-111 | one row per project, in order |
| AdminDashboard.TableRows | app/add/AdminDashboard.tsx:110-147 | an empty list shows the single "No projects found." row; otherwise there is one row per project |
| AdminDashboard.Dashboard.Table | app/add/AdminDashboard.tsx:110-147 | the dashboard's table body is the single "No projects found." row exactly when it was given no projects, and otherwise each given project's row in order |
| AdminDashboard.Dashboard.constructor | app/add/AdminDashboard.tsx:34-39 | the dashboard starts with every dialog closed, nothing selected and both inputs empty |
| AdminDashboard.Dashboard.SetAddDialogOpen | app/add/AdminDashboard.tsx:81 | opening or closing the add dialog sets its flag |
| AdminDashboard.Dashboard.SetEditDialogOpen | app/add/AdminDashboard.tsx:153 | opening or closing the edit dialog sets its flag |
| AdminDashboard.Dashboard.SetDeleteDialogOpen | app/add/AdminDashboard.tsx:163 | opening or closing the delete dialog sets its flag and keeps the typed inputs |
| AdminDashboard.Dashboard.EditClick | app/add/AdminDashboard.tsx:41-44 | Edit selects the project and opens the edit dialog |
| AdminDashboard.Dashboard.DeleteClick | app/add/AdminDashboard.tsx:46-49 | Delete selects the project and opens the delete dialog |
| AdminDashboard.Dashboard.TypeConfirmation | app/add/AdminDashboard.tsx:181 | typing sets the confirmation text |
| AdminDashboard.Dashboard.TypePassword | app/add/AdminDashboard.tsx:187 | typing sets the password text |
| AdminDashboard.Dashboard.ConfirmDelete | app/add/AdminDashboard.tsx:51-71 | a failed check shows its error and changes nothing, in the dashboard or the store; otherwise the store performs DeleteSpec's step on the selected project's id and image URL; a success closes the dialog and clears the selection and both inputs; a failure shows the error and changes no dashboard state |
| ProjectList.CodeHref | components/ProjectList.tsx:53 | the placeholder GitHub URL links to the internal "/coming-soon" page, and any other URL links to itself |
| ProjectList.CardFor | components/ProjectList.tsx:38-75 | a card shows the project's id, title, description, image and every stack in order; Live Demo appears exactly for a non-empty demo URL and links to it; Code appears exactly for a non-empty GitHub URL and links to CodeHref of it |
| ProjectList.Cards | components/ProjectList.tsx:26-28 | one card per project, in the listing's order |
| ProjectList.BlankGithubLinksToComingSoon | components/ProjectList.tsx:51-57 | a project added with a blank GitHub URL is stored, and its card's Code button leads to "/coming-soon" |
| ProjectList.ListingShowsEveryProject | components/ProjectList.tsx:26 | rendering a listing returned by getProjects shows a card for every stored project, and a stored placeholder becomes a coming-soon link |

## Left out

- Actions.Backend.GetProjects: the listing's order is not stated. The query sorts by `createdAt` descending, and the store's ordering semantics are not modelled.
- Actions.LoginSpec: the cookie's attributes (HTTP-only, secure in production, one-day max-age, path `/`) and its expiry are not modelled. Only its name and value are.
- Actions.UpdateSpec: a document write that fails and a missing document are both failures with a message supplied by `Env`. The store's own messages are not modelled.
- JsStrings.Join: its own contract states only that no labels join to the empty string. What a join of comma-free labels holds is stated by SplitJoin and SplitUnique, because stating it on Join itself makes every proof that unfolds Join too costly for the verifier.
- Actions.DeleteSpec: deleting a missing id succeeds, as the store does, with nothing in the model to report it.
- `revalidatePath` calls are left out: cache invalidation has no effect on the stored state.
- `ref()` throwing synchronously on a malformed URL is left out. A blob key is an abstract string, and `ref` is not modelled apart from the delete and upload it feeds.
- The upload's storage path (`projects/<time>_<name>`) is left out. The download URL the store returns is an `Env` value, and it names the blob.
- The id `addDoc` assigns is an `Env` value that the add actions require to be absent from the store. The store's id generator is not modelled.
- `createdAt` is the `Env` clock value and not a server-side sentinel resolved later.
- The public grid's `imageUrl || ''` fallback is moot, because the stored image URL is always a string.
- Toast rendering, dialogs' visuals, motion effects and the component library are left out. A toast is a value the methods return.
- The submit button (app/add/AddProjectForm.tsx:155-162) is left out. Its disabled state, spinner and caption depend only on `useFormStatus`'s pending flag, and the model's `Submit` runs in one step, so no pending state exists.
- The dashboard and the form share the dialog's open flag through `setDialogOpen`. The form's own `dialogOpen` field stands for the parent's flag, and the two classes are not linked.
- The alert dialog's action button also closes the dialog when clicked, because of the component library. `ConfirmDelete` models only `confirmDelete`'s own code, and `SetDeleteDialogOpen` models the library's close.
- The select's `defaultValue` (the first selected tag) is display only and is left out.
- The password prompt component, the admin page's plumbing apart from the cookie check, and the static marketing components are left out. They hold no logic beyond rendering.
- The browser's `required` check is modelled as "empty title or description stops the submission". Other browser validation is left out.
