/** The server actions behind the admin page: login, listing, and adding,
    updating and deleting portfolio projects. The document collection, the
    image bucket and the cookie jar are one abstract Store; the clock, the ids
    and download URLs the providers hand out and the failures they may raise
    are an Env the caller supplies. Each action is first a function from the
    old Store to a Step (new Store and result), then a method of Backend,
    whose fields are that Store, proved to perform the function's step. */
module Actions {
  import opened JsStrings

  const GITHUB_PLACEHOLDER: string := "coming-soon"
  const AUTH_COOKIE: string := "admin-auth"
  const AUTH_VALUE: string := "true"

  const INVALID_PASSWORD: string := "Invalid password."
  const INVALID_ACTION: string := "Invalid action."
  const MISSING_ID: string := "Project ID is missing."
  const UNKNOWN_ERROR: string := "An unknown error occurred."
  const ADDED: string := "Project added successfully!"
  const UPDATED: string := "Project updated successfully!"
  const DELETED: string := "Project deleted."

  /** The `image` entry of a form: a File with a name and a size in bytes. */
  datatype ImageFile = ImageFile(name: string, size: nat)

  /** A submitted form, each field as `formData.get` gives it (None: null). */
  datatype Submission = Submission(
    action: Option<string>,
    id: Option<string>,
    title: Option<string>,
    description: Option<string>,
    stacks: Option<string>,
    tags: Option<string>,
    liveDemoUrl: Option<string>,
    githubUrl: Option<string>,
    image: Option<ImageFile>)

  /** The fields written to a project document. */
  datatype ProjectData = ProjectData(
    title: Option<string>,
    description: Option<string>,
    stacks: seq<string>,
    liveDemoUrl: Option<string>,
    githubUrl: string,
    tags: seq<string>,
    imageUrl: string,
    createdAt: int)

  /** A listed document: `{ id: doc.id, ...doc.data() }`. */
  datatype Project = Project(id: string, data: ProjectData)

  /** What a failing provider call throws: an Error with a message, or some
      other value. */
  datatype Thrown = ErrorObject(message: string) | NonError

  /** The result every action returns: `{success: true, message?}` or
      `{success: false, error}`. */
  datatype ActionState = Succeeded(message: Option<string>) | Failed(error: string)

  datatype Outcome<T> = Done(value: T) | Threw(error: Thrown)

  /** The outside world during one action: the time the store stamps
      (`serverTimestamp()`), the id `addDoc` assigns, the download URL of an
      upload (which also names the blob the upload stores), and which
      provider calls fail: `uploadBytes` (uploadFault), `getDownloadURL`
      after a stored upload (urlFault), the document write, a blob delete,
      and the error `updateDoc` throws for a missing document. */
  datatype Env = Env(
    now: int,
    newId: string,
    uploadUrl: string,
    uploadFault: Option<Thrown>,
    urlFault: Option<Thrown>,
    writeFault: Option<Thrown>,
    blobDeleteFails: bool,
    notFound: Thrown)

  /** The documents by id, the keys of the stored image blobs, the cookies. */
  datatype Store = Store(docs: map<string, ProjectData>, blobs: set<string>, cookies: map<string, string>)

  datatype Step = Step(store: Store, result: ActionState)

  datatype Prepared = Prepared(blobs: set<string>, data: Outcome<ProjectData>)

  // ---------------------------------------------------------------------------
  // Pure pieces

  /** `getErrorMessage`: an Error's own message, a fixed text for anything else. */
  function GetErrorMessage(e: Thrown): (m: string)
    ensures e.ErrorObject? ==> m == e.message
    ensures e.NonError? ==> m == UNKNOWN_ERROR
  {
    match e
    case ErrorObject(msg) => msg
    case NonError => UNKNOWN_ERROR
  }

  /** The admin page shows the dashboard only to a request whose `admin-auth`
      cookie is exactly "true". */
  predicate IsAdmin(cookies: map<string, string>): (b: bool)
    ensures b ==> AUTH_COOKIE in cookies
    ensures AUTH_COOKIE in cookies ==> (b <==> cookies[AUTH_COOKIE] == AUTH_VALUE)
  {
    AUTH_COOKIE in cookies && cookies[AUTH_COOKIE] == AUTH_VALUE
  }

  /** `s ? s.split(',').map(x => x.trim()) : []`: nothing for a missing or
      empty field, else one trimmed entry per comma-separated segment, empty
      segments kept. */
  function ParseList(field: Option<string>): (r: seq<string>)
    ensures !Truthy(field) ==> r == []
    ensures Truthy(field) ==> |r| == |Split(field.value)|
    ensures Truthy(field) ==> forall i :: 0 <= i < |r| ==> r[i] == Trim(Split(field.value)[i])
  {
    if Truthy(field) then TrimAll(Split(field.value)) else []
  }

  /** The stored GitHub URL: the placeholder for a blank field, the submitted
      text otherwise. */
  function GithubUrlFor(field: Option<string>): (r: string)
    ensures !Truthy(field) ==> r == GITHUB_PLACEHOLDER
    ensures Truthy(field) ==> r == field.value
    ensures r == GITHUB_PLACEHOLDER <==> !Truthy(field) || field.value == GITHUB_PLACEHOLDER
  {
    if Truthy(field) then field.value else GITHUB_PLACEHOLDER
  }

  /** `imageFile && imageFile.size > 0`. */
  predicate HasNewImage(image: Option<ImageFile>): (b: bool)
    ensures image.None? ==> !b
    ensures image.Some? ==> (b <==> image.value.size != 0)
  {
    image.Some? && image.value.size > 0
  }

  /** The upload step throws: `uploadBytes` fails, or it stores the blob and
      `getDownloadURL` then fails. */
  predicate UploadFails(env: Env) {
    env.uploadFault.Some? || env.urlFault.Some?
  }

  /** What the upload step throws, the first failing call's error. */
  function UploadError(env: Env): Thrown
    requires UploadFails(env)
  {
    if env.uploadFault.Some? then env.uploadFault.value else env.urlFault.value
  }

  /** The stored image URL: the fresh upload's URL when a non-empty file came
      with the form, else the reference passed in, or '' without one. */
  function ImageUrlFor(existing: Option<string>, image: Option<ImageFile>, uploaded: string): (r: string)
    ensures HasNewImage(image) ==> r == uploaded
    ensures !HasNewImage(image) ==> r == OrEmpty(existing)
  {
    if HasNewImage(image) then uploaded else OrEmpty(existing)
  }

  /** The record `prepareProjectData` builds once the image URL is known: the
      text fields as submitted, the lists parsed, and a GitHub URL that is
      never blank. */
  function Shape(form: Submission, imageUrl: string, now: int): (d: ProjectData)
    ensures d.title == form.title && d.description == form.description && d.liveDemoUrl == form.liveDemoUrl
    ensures d.stacks == ParseList(form.stacks) && d.tags == ParseList(form.tags)
    ensures d.githubUrl != ""
    ensures d.githubUrl == GithubUrlFor(form.githubUrl)
    ensures d.imageUrl == imageUrl && d.createdAt == now
  {
    ProjectData(
      title := form.title,
      description := form.description,
      stacks := ParseList(form.stacks),
      liveDemoUrl := form.liveDemoUrl,
      githubUrl := GithubUrlFor(form.githubUrl),
      tags := ParseList(form.tags),
      imageUrl := imageUrl,
      createdAt := now)
  }

  /** `deleteObject(ref(storage, key)).catch(...)`: the blob is gone unless
      the call failed, and a failure is swallowed. */
  function BestEffortDelete(blobs: set<string>, key: string, fails: bool): (r: set<string>)
    ensures r <= blobs
    ensures !fails ==> key !in r
    ensures fails ==> r == blobs
    ensures forall k :: k in blobs && k != key ==> k in r
  {
    if fails then blobs else blobs - {key}
  }

  /** `prepareProjectData(formData, existingImageUrl)`: with a non-empty
      file, a best-effort delete of the existing reference, then an upload
      and the download URL; then the record. Only the upload step can fail,
      and a blob `uploadBytes` stored stays even if `getDownloadURL` fails. */
  function PrepareSpec(blobs: set<string>, form: Submission, existing: Option<string>, env: Env): (p: Prepared)
    ensures !HasNewImage(form.image) ==> p.blobs == blobs
    ensures p.data.Threw? <==> HasNewImage(form.image) && UploadFails(env)
    ensures p.data.Threw? ==> p.data.error == UploadError(env)
    ensures p.data.Done? ==> p.data.value == Shape(form, ImageUrlFor(existing, form.image, env.uploadUrl), env.now)
    ensures HasNewImage(form.image) && env.uploadFault.None? ==> env.uploadUrl in p.blobs
    ensures HasNewImage(form.image) && Truthy(existing) && !env.blobDeleteFails && existing.value != env.uploadUrl
            ==> existing.value !in p.blobs
    ensures forall k :: k in blobs && !(Truthy(existing) && k == existing.value) ==> k in p.blobs
    ensures p.blobs <= blobs + {env.uploadUrl}
    ensures env.uploadFault.Some? ==> p.blobs <= blobs
    ensures env.blobDeleteFails ==> blobs <= p.blobs
  {
    if !HasNewImage(form.image) then
      Prepared(blobs, Done(Shape(form, OrEmpty(existing), env.now)))
    else
      var cleaned := if Truthy(existing) then BestEffortDelete(blobs, existing.value, env.blobDeleteFails) else blobs;
      match env.uploadFault
      case Some(e) => Prepared(cleaned, Threw(e))
      case None =>
        var stored := cleaned + {env.uploadUrl};
        match env.urlFault
        case Some(e) => Prepared(stored, Threw(e))
        case None => Prepared(stored, Done(Shape(form, env.uploadUrl, env.now)))
  }

  // ---------------------------------------------------------------------------
  // The actions as steps on the Store

  /** `handleLogin`: success and the auth cookie exactly when the password is
      the configured secret (an unset secret matches nothing). */
  function LoginSpec(s: Store, password: string, secret: Option<string>): (r: Step)
    ensures r.result.Succeeded? <==> secret == Some(password)
    ensures r.result.Succeeded? ==> r.result.message.None? && r.store == s.(cookies := s.cookies[AUTH_COOKIE := AUTH_VALUE])
    ensures r.result.Failed? ==> r == Step(s, Failed(INVALID_PASSWORD))
    ensures IsAdmin(r.store.cookies) <==> r.result.Succeeded? || IsAdmin(s.cookies)
  {
    if secret == Some(password) then
      Step(s.(cookies := s.cookies[AUTH_COOKIE := AUTH_VALUE]), Succeeded(None))
    else
      Step(s, Failed(INVALID_PASSWORD))
  }

  /** `handleAddProject`: prepare the record, then `addDoc` under the id the
      store assigns, which is always a fresh one; any thrown value becomes a
      failure carrying its message. */
  function AddSpec(s: Store, form: Submission, env: Env): (r: Step)
    requires env.newId !in s.docs
    ensures r.store.cookies == s.cookies
    ensures r.store.blobs == PrepareSpec(s.blobs, form, None, env).blobs
    ensures r.result.Succeeded? <==> !(HasNewImage(form.image) && UploadFails(env)) && env.writeFault.None?
    ensures r.result.Succeeded? ==>
              && r.result == Succeeded(Some(ADDED))
              && r.store.docs == s.docs[env.newId := Shape(form, ImageUrlFor(None, form.image, env.uploadUrl), env.now)]
              && s.docs.Keys < r.store.docs.Keys
    ensures r.result.Failed? ==> r.store.docs == s.docs
    ensures r.result.Failed? && HasNewImage(form.image) && UploadFails(env)
            ==> r.result.error == GetErrorMessage(UploadError(env))
    ensures r.result.Failed? && !(HasNewImage(form.image) && UploadFails(env))
            ==> r.result.error == GetErrorMessage(env.writeFault.value)
  {
    var p := PrepareSpec(s.blobs, form, None, env);
    match p.data
    case Threw(e) => Step(s.(blobs := p.blobs), Failed(GetErrorMessage(e)))
    case Done(d) =>
      match env.writeFault
      case Some(e) => Step(s.(blobs := p.blobs), Failed(GetErrorMessage(e)))
      case None => Step(s.(blobs := p.blobs, docs := s.docs[env.newId := d]), Succeeded(Some(ADDED)))
  }

  /** `handleUpdateProject`: a blank id fails before anything else; otherwise
      the record is prepared with the id itself passed as the existing image
      reference, and `updateDoc` overwrites the document, failing if the store
      fails or has no document with that id. */
  function UpdateSpec(s: Store, form: Submission, env: Env): (r: Step)
    ensures !Truthy(form.id) ==> r == Step(s, Failed(MISSING_ID))
    ensures r.store.cookies == s.cookies
    ensures Truthy(form.id) ==> r.store.blobs == PrepareSpec(s.blobs, form, form.id, env).blobs
    ensures r.result.Succeeded? <==>
              && Truthy(form.id)
              && !(HasNewImage(form.image) && UploadFails(env))
              && env.writeFault.None?
              && form.id.value in s.docs
    ensures r.result.Succeeded? ==>
              && r.result == Succeeded(Some(UPDATED))
              && r.store.docs == s.docs[form.id.value := Shape(form, ImageUrlFor(form.id, form.image, env.uploadUrl), env.now)]
    ensures r.result.Failed? ==> r.store.docs == s.docs
    ensures r.result.Failed? && Truthy(form.id) && HasNewImage(form.image) && UploadFails(env)
            ==> r.result.error == GetErrorMessage(UploadError(env))
    ensures r.result.Failed? && Truthy(form.id) && !(HasNewImage(form.image) && UploadFails(env)) && env.writeFault.Some?
            ==> r.result.error == GetErrorMessage(env.writeFault.value)
    ensures r.result.Failed? && Truthy(form.id) && !(HasNewImage(form.image) && UploadFails(env)) && env.writeFault.None?
            ==> r.result.error == GetErrorMessage(env.notFound)
  {
    if !Truthy(form.id) then Step(s, Failed(MISSING_ID))
    else
      var id := form.id.value;
      var p := PrepareSpec(s.blobs, form, form.id, env);
      match p.data
      case Threw(e) => Step(s.(blobs := p.blobs), Failed(GetErrorMessage(e)))
      case Done(d) =>
        match env.writeFault
        case Some(e) => Step(s.(blobs := p.blobs), Failed(GetErrorMessage(e)))
        case None =>
          if id !in s.docs then Step(s.(blobs := p.blobs), Failed(GetErrorMessage(env.notFound)))
          else Step(s.(blobs := p.blobs, docs := s.docs[id := d]), Succeeded(Some(UPDATED)))
  }

  /** `handleDeleteProject`: a best-effort delete of the image blob, then
      `deleteDoc`; only the document delete can make the action fail. */
  function DeleteSpec(s: Store, id: string, imageUrl: Option<string>, env: Env): (r: Step)
    ensures r.result == if env.writeFault.None? then Succeeded(Some(DELETED))
                        else Failed(GetErrorMessage(env.writeFault.value))
    ensures r.store.docs == if env.writeFault.None? then s.docs - {id} else s.docs
    ensures !Truthy(imageUrl) ==> r.store.blobs == s.blobs
    ensures Truthy(imageUrl) ==> r.store.blobs == BestEffortDelete(s.blobs, imageUrl.value, env.blobDeleteFails)
    ensures r.store.cookies == s.cookies
  {
    var blobs := if Truthy(imageUrl) then BestEffortDelete(s.blobs, imageUrl.value, env.blobDeleteFails) else s.blobs;
    match env.writeFault
    case Some(e) => Step(s.(blobs := blobs), Failed(GetErrorMessage(e)))
    case None => Step(s.(blobs := blobs, docs := s.docs - {id}), Succeeded(Some(DELETED)))
  }

  /** `handleProjectAction`: the form's `action` field picks add or update;
      anything else fails and touches nothing. */
  function ProjectActionSpec(s: Store, form: Submission, env: Env): (r: Step)
    requires form.action == Some("add") ==> env.newId !in s.docs
    ensures form.action == Some("add") ==> r == AddSpec(s, form, env)
    ensures form.action == Some("update") ==> r == UpdateSpec(s, form, env)
    ensures form.action != Some("add") && form.action != Some("update") ==> r == Step(s, Failed(INVALID_ACTION))
  {
    if form.action == Some("add") then AddSpec(s, form, env)
    else if form.action == Some("update") then UpdateSpec(s, form, env)
    else Step(s, Failed(INVALID_ACTION))
  }

  // ---------------------------------------------------------------------------
  // Properties relating several calls

  /** A failed blob delete is invisible in the result and in the documents,
      for delete and for update alike. */
  lemma BlobCleanupFailureSwallowed(s: Store, form: Submission, id: string, imageUrl: Option<string>, env: Env)
    ensures var fails := env.(blobDeleteFails := true);
            var works := env.(blobDeleteFails := false);
            && DeleteSpec(s, id, imageUrl, fails).result == DeleteSpec(s, id, imageUrl, works).result
            && DeleteSpec(s, id, imageUrl, fails).store.docs == DeleteSpec(s, id, imageUrl, works).store.docs
            && UpdateSpec(s, form, fails).result == UpdateSpec(s, form, works).result
            && UpdateSpec(s, form, fails).store.docs == UpdateSpec(s, form, works).store.docs
  {
  }

  /** An update without a new file stores the project's own id as its image
      URL, and every successful update stamps a new createdAt. */
  lemma UpdateStoresIdAsImageUrl(s: Store, form: Submission, env: Env)
    requires Truthy(form.id) && form.id.value in s.docs
    requires !HasNewImage(form.image) && env.writeFault.None?
    ensures var r := UpdateSpec(s, form, env);
            && r.result.Succeeded?
            && r.store.docs[form.id.value].imageUrl == form.id.value
            && r.store.docs[form.id.value].createdAt == env.now
            && r.store.blobs == s.blobs
  {
  }

  /** An update with a new file tries to delete the blob keyed by the id, not
      the project's current image: the current image's blob stays. */
  lemma UpdateDeletesBlobKeyedById(s: Store, form: Submission, env: Env)
    requires Truthy(form.id) && form.id.value in s.docs
    requires HasNewImage(form.image) && env.uploadFault.None? && !env.blobDeleteFails
    ensures var id := form.id.value;
            var old_image := s.docs[id].imageUrl;
            var r := UpdateSpec(s, form, env);
            && r.store.blobs == (s.blobs - {id}) + {env.uploadUrl}
            && (old_image in s.blobs && old_image != id ==> old_image in r.store.blobs)
  {
  }

  /** The steps are not transactional: an upload followed by a failed
      document write leaves the new blob behind. */
  lemma AddOrphansUploadOnWriteFailure(s: Store, form: Submission, env: Env)
    requires form.action == Some("add") && env.newId !in s.docs
    requires HasNewImage(form.image) && !UploadFails(env) && env.writeFault.Some?
    ensures var r := ProjectActionSpec(s, form, env);
            && r.result == Failed(GetErrorMessage(env.writeFault.value))
            && r.store.docs == s.docs
            && env.uploadUrl in r.store.blobs
  {
  }

  /** Nor is the upload itself: a blob stored by `uploadBytes` stays when
      `getDownloadURL` then fails, for an add and for an update alike. */
  lemma UrlFailureOrphansUpload(s: Store, form: Submission, env: Env)
    requires form.action == Some("add") ==> env.newId !in s.docs
    requires form.action == Some("add") || (form.action == Some("update") && Truthy(form.id))
    requires HasNewImage(form.image) && env.uploadFault.None? && env.urlFault.Some?
    ensures var r := ProjectActionSpec(s, form, env);
            && r.result == Failed(GetErrorMessage(env.urlFault.value))
            && r.store.docs == s.docs
            && env.uploadUrl in r.store.blobs
  {
  }

  /** A successful add stores a project with the submitted, parsed fields,
      the placeholder GitHub URL exactly when the field was blank or was the
      placeholder itself. */
  lemma AddStoresSubmittedFields(s: Store, form: Submission, env: Env)
    requires form.action == Some("add") && env.newId !in s.docs && env.writeFault.None?
    requires !(HasNewImage(form.image) && UploadFails(env))
    ensures var r := ProjectActionSpec(s, form, env);
            var d := r.store.docs[env.newId];
            && env.newId in r.store.docs
            && d.title == form.title && d.description == form.description
            && d.stacks == ParseList(form.stacks) && d.tags == ParseList(form.tags)
            && d.liveDemoUrl == form.liveDemoUrl
            && (d.githubUrl == GITHUB_PLACEHOLDER <==> !Truthy(form.githubUrl) || form.githubUrl.value == GITHUB_PLACEHOLDER)
            && (Truthy(form.githubUrl) ==> d.githubUrl == form.githubUrl.value)
            && d.imageUrl == (if HasNewImage(form.image) then env.uploadUrl else "")
  {
  }

  // ---------------------------------------------------------------------------
  // The backend: the store's state, updated in place by the actions

  /** The set of ids a listing holds. */
  function IdsOf(ps: seq<Project>): set<string> {
    set p | p in ps :: p.id
  }

  /** Every listed project is the stored document under its id. */
  predicate ListedFrom(ps: seq<Project>, docs: map<string, ProjectData>) {
    forall i :: 0 <= i < |ps| ==> ps[i].id in docs && docs[ps[i].id] == ps[i].data
  }

  lemma ListingExtend(ps: seq<Project>, docs: map<string, ProjectData>, id: string)
    requires ListedFrom(ps, docs) && id in docs
    ensures ListedFrom(ps + [Project(id, docs[id])], docs)
    ensures IdsOf(ps + [Project(id, docs[id])]) == IdsOf(ps) + {id}
  {
    var p := Project(id, docs[id]);
    assert forall q :: q in ps + [p] <==> q in ps || q == p;
  }

  class Backend {
    var docs: map<string, ProjectData>
    var blobs: set<string>
    var cookies: map<string, string>
    /** `process.env.ADMIN_PASSWORD`, possibly unset. */
    const adminPassword: Option<string>

    function State(): Store
      reads this
    {
      Store(docs, blobs, cookies)
    }

    constructor (initial: Store, adminPassword: Option<string>)
      ensures State() == initial && this.adminPassword == adminPassword
    {
      docs, blobs, cookies := initial.docs, initial.blobs, initial.cookies;
      this.adminPassword := adminPassword;
    }

    method Login(password: string) returns (r: ActionState)
      modifies this`cookies
      ensures Step(State(), r) == LoginSpec(old(State()), password, adminPassword)
    {
      if Some(password) == adminPassword {
        cookies := cookies[AUTH_COOKIE := AUTH_VALUE];
        return Succeeded(None);
      }
      return Failed(INVALID_PASSWORD);
    }

    /** `getProjects`: every stored document once, with its id. The order the
        store sorts them in is not modelled. */
    method GetProjects() returns (ps: seq<Project>)
      ensures IdsOf(ps) == docs.Keys
      ensures |ps| == |docs.Keys|
      ensures ListedFrom(ps, docs)
    {
      ps := [];
      var remaining := docs.Keys;
      while remaining != {}
        invariant remaining <= docs.Keys
        invariant IdsOf(ps) == docs.Keys - remaining
        invariant |ps| + |remaining| == |docs.Keys|
        invariant ListedFrom(ps, docs)
        decreases remaining
      {
        var id :| id in remaining;
        ListingExtend(ps, docs, id);
        ps := ps + [Project(id, docs[id])];
        remaining := remaining - {id};
      }
    }

    method DeleteBlob(key: string, fails: bool)
      modifies this`blobs
      ensures blobs == BestEffortDelete(old(blobs), key, fails)
    {
      if !fails {
        blobs := blobs - {key};
      }
    }

    /** `uploadBytes` then `getDownloadURL`: the blob is stored once the
        first call succeeds, whatever the second does. */
    method Upload(env: Env) returns (r: Outcome<string>)
      modifies this`blobs
      ensures r == if UploadFails(env) then Threw(UploadError(env)) else Done(env.uploadUrl)
      ensures blobs == if env.uploadFault.Some? then old(blobs) else old(blobs) + {env.uploadUrl}
    {
      if env.uploadFault.Some? {
        return Threw(env.uploadFault.value);
      }
      blobs := blobs + {env.uploadUrl};
      if env.urlFault.Some? {
        return Threw(env.urlFault.value);
      }
      return Done(env.uploadUrl);
    }

    method PrepareProjectData(form: Submission, existing: Option<string>, env: Env) returns (r: Outcome<ProjectData>)
      modifies this`blobs
      ensures Prepared(blobs, r) == PrepareSpec(old(blobs), form, existing, env)
    {
      var imageUrl := OrEmpty(existing);
      if HasNewImage(form.image) {
        if Truthy(existing) {
          DeleteBlob(existing.value, env.blobDeleteFails);
        }
        var uploaded := Upload(env);
        if uploaded.Threw? {
          return Threw(uploaded.error);
        }
        imageUrl := uploaded.value;
      }
      return Done(Shape(form, imageUrl, env.now));
    }

    method AddProject(form: Submission, env: Env) returns (r: ActionState)
      requires env.newId !in docs
      modifies this`docs, this`blobs
      ensures Step(State(), r) == AddSpec(old(State()), form, env)
    {
      var data := PrepareProjectData(form, None, env);
      if data.Threw? {
        return Failed(GetErrorMessage(data.error));
      }
      if env.writeFault.Some? {
        return Failed(GetErrorMessage(env.writeFault.value));
      }
      docs := docs[env.newId := data.value];
      return Succeeded(Some(ADDED));
    }

    method UpdateProject(form: Submission, env: Env) returns (r: ActionState)
      modifies this`docs, this`blobs
      ensures Step(State(), r) == UpdateSpec(old(State()), form, env)
    {
      if !Truthy(form.id) {
        return Failed(MISSING_ID);
      }
      var id := form.id.value;
      var data := PrepareProjectData(form, form.id, env);
      if data.Threw? {
        return Failed(GetErrorMessage(data.error));
      }
      if env.writeFault.Some? {
        return Failed(GetErrorMessage(env.writeFault.value));
      }
      if id !in docs {
        return Failed(GetErrorMessage(env.notFound));
      }
      docs := docs[id := data.value];
      return Succeeded(Some(UPDATED));
    }

    method DeleteProject(id: string, imageUrl: Option<string>, env: Env) returns (r: ActionState)
      modifies this`docs, this`blobs
      ensures Step(State(), r) == DeleteSpec(old(State()), id, imageUrl, env)
    {
      if Truthy(imageUrl) {
        DeleteBlob(imageUrl.value, env.blobDeleteFails);
      }
      if env.writeFault.Some? {
        return Failed(GetErrorMessage(env.writeFault.value));
      }
      docs := docs - {id};
      return Succeeded(Some(DELETED));
    }

    method ProjectAction(form: Submission, env: Env) returns (r: ActionState)
      requires form.action == Some("add") ==> env.newId !in docs
      modifies this`docs, this`blobs
      ensures Step(State(), r) == ProjectActionSpec(old(State()), form, env)
    {
      if form.action == Some("add") {
        r := AddProject(form, env);
      } else if form.action == Some("update") {
        r := UpdateProject(form, env);
      } else {
        r := Failed(INVALID_ACTION);
      }
    }
  }
}
