/** The admin dashboard: the project table, the dialogs, and the guarded
    delete confirmation. */
module AdminDashboard {
  import opened JsStrings
  import opened Actions
  import opened AddProjectForm

  const NAME_MISMATCH: string := "Project name does not match."
  const WRONG_PASSWORD: string := "Admin password is incorrect."

  /** How many stacks a table row shows before the ellipsis badge. */
  const SHOWN_STACKS: nat := 4

  // ---------------------------------------------------------------------------
  // The delete confirmation

  /** The outcome of `confirmDelete`'s two checks. */
  datatype Guard = NameMismatch | WrongPassword | Proceed

  /** The typed confirmation equals the selected project's title exactly. */
  predicate TitleConfirmed(selected: Option<Project>, confirmation: string) {
    selected.Some? && selected.value.data.title == Some(confirmation)
  }

  /** The checks `confirmDelete` makes, in order: the title first, then the
      password against the configured delete password (an unset one matches
      nothing). A title mismatch is reported whatever the password. */
  function DeleteGuard(selected: Option<Project>, confirmation: string, password: string, secret: Option<string>): (g: Guard)
    ensures g == Proceed <==> TitleConfirmed(selected, confirmation) && secret == Some(password)
    ensures g == NameMismatch <==> !TitleConfirmed(selected, confirmation)
    ensures g == WrongPassword <==> TitleConfirmed(selected, confirmation) && secret != Some(password)
  {
    if !TitleConfirmed(selected, confirmation) then NameMismatch
    else if secret != Some(password) then WrongPassword
    else Proceed
  }

  /** The Delete button is enabled when the confirmation matches the title and
      some password has been typed; the password's value is not looked at.
      A project stored without a title can never be deleted from the
      dashboard. */
  predicate DeleteEnabled(selected: Option<Project>, confirmation: string, password: string): (b: bool)
    ensures b ==> selected.Some? && password != ""
    ensures selected.Some? && selected.value.data.title.None? ==> !b
    ensures b ==> DeleteGuard(selected, confirmation, password, Some(password)) == Proceed
  {
    TitleConfirmed(selected, confirmation) && password != ""
  }

  /** Whatever passes the guard finds the button enabled, unless the
      configured delete password is itself empty. */
  lemma GuardImpliesEnabled(selected: Option<Project>, confirmation: string, password: string, secret: Option<string>)
    requires DeleteGuard(selected, confirmation, password, secret) == Proceed
    requires secret != Some("")
    ensures DeleteEnabled(selected, confirmation, password)
  {
  }

  /** The converse fails: an enabled button with a wrong password reaches
      the second check and stops there. */
  lemma EnabledWithWrongPassword(selected: Option<Project>, confirmation: string, password: string, secret: Option<string>)
    requires DeleteEnabled(selected, confirmation, password) && secret != Some(password)
    ensures DeleteGuard(selected, confirmation, password, secret) == WrongPassword
  {
  }

  // ---------------------------------------------------------------------------
  // The project table

  /** The stacks cell: the first four stacks, then a "..." badge if there are
      more. */
  datatype StacksCell = StacksCell(badges: seq<string>, ellipsis: bool)

  function StacksColumn(stacks: seq<string>): (c: StacksCell)
    ensures |c.badges| == if |stacks| < SHOWN_STACKS then |stacks| else SHOWN_STACKS
    ensures c.badges == stacks[..|c.badges|]
    ensures c.ellipsis <==> |stacks| > SHOWN_STACKS
  {
    if |stacks| <= SHOWN_STACKS then StacksCell(stacks, false)
    else StacksCell(stacks[..SHOWN_STACKS], true)
  }

  datatype Row =
    | ProjectRow(key: string, title: Option<string>, tags: seq<string>, stacks: StacksCell)
    | EmptyRow

  /** A project's row: its id as key, its title and tags, and the stacks
      column. */
  function RowFor(p: Project): (r: Row)
    ensures r.ProjectRow? && r.key == p.id && r.title == p.data.title && r.tags == p.data.tags
    ensures r.stacks == StacksColumn(p.data.stacks) && |r.stacks.badges| <= SHOWN_STACKS
  {
    ProjectRow(p.id, p.data.title, p.data.tags, StacksColumn(p.data.stacks))
  }

  /** One row per project, in order. */
  function ProjectRows(ps: seq<Project>): (rows: seq<Row>)
    ensures |rows| == |ps|
    ensures forall i :: 0 <= i < |ps| ==> rows[i] == RowFor(ps[i])
  {
    if ps == [] then [] else [RowFor(ps[0])] + ProjectRows(ps[1..])
  }

  /** The table body: the project rows, or the single "No projects found."
      row for an empty list. */
  function TableRows(ps: seq<Project>): (rows: seq<Row>)
    ensures ps == [] ==> rows == [EmptyRow]
    ensures ps != [] ==> |rows| == |ps| && forall i :: 0 <= i < |ps| ==> rows[i] == RowFor(ps[i])
  {
    if ps == [] then [EmptyRow] else ProjectRows(ps)
  }

  // ---------------------------------------------------------------------------
  // The component's state

  class Dashboard {
    const projects: seq<Project>
    /** `NEXT_PUBLIC_ADMIN_PASSWORD_FOR_DELETE`, possibly unset. */
    const deleteSecret: Option<string>
    var addOpen: bool
    var editOpen: bool
    var deleteOpen: bool
    var selected: Option<Project>
    var deleteConfirmation: string
    var deletePassword: string

    constructor (projects: seq<Project>, deleteSecret: Option<string>)
      ensures this.projects == projects && this.deleteSecret == deleteSecret
      ensures !addOpen && !editOpen && !deleteOpen && selected.None?
      ensures deleteConfirmation == "" && deletePassword == ""
    {
      this.projects := projects;
      this.deleteSecret := deleteSecret;
      addOpen, editOpen, deleteOpen := false, false, false;
      selected := None;
      deleteConfirmation, deletePassword := "", "";
    }

    /** The table body the dashboard renders for the projects it was given:
        the "No projects found." row alone, or each project's row in order. */
    function Table(): (rows: seq<Row>)
      ensures rows == [EmptyRow] <==> projects == []
      ensures projects != [] ==> |rows| == |projects| && forall i :: 0 <= i < |projects| ==> rows[i] == RowFor(projects[i])
    {
      TableRows(projects)
    }

    method SetAddDialogOpen(open: bool)
      modifies this`addOpen
      ensures addOpen == open
    {
      addOpen := open;
    }

    method SetEditDialogOpen(open: bool)
      modifies this`editOpen
      ensures editOpen == open
    {
      editOpen := open;
    }

    /** Also the Cancel button; the typed inputs are kept. */
    method SetDeleteDialogOpen(open: bool)
      modifies this`deleteOpen
      ensures deleteOpen == open
    {
      deleteOpen := open;
    }

    /** `handleEditClick`: selects the project and opens the edit dialog only. */
    method EditClick(p: Project)
      modifies this`selected, this`editOpen
      ensures selected == Some(p) && editOpen
    {
      selected := Some(p);
      editOpen := true;
    }

    /** `handleDeleteClick`: selects the project and opens the delete dialog
        only; what was typed for an earlier project stays. */
    method DeleteClick(p: Project)
      modifies this`selected, this`deleteOpen
      ensures selected == Some(p) && deleteOpen
    {
      selected := Some(p);
      deleteOpen := true;
    }

    method TypeConfirmation(value: string)
      modifies this`deleteConfirmation
      ensures deleteConfirmation == value
    {
      deleteConfirmation := value;
    }

    method TypePassword(value: string)
      modifies this`deletePassword
      ensures deletePassword == value
    {
      deletePassword := value;
    }

    /** `confirmDelete`: the two checks, then the delete action on the
        selected project's id and image URL. A success closes the dialog and
        resets the selection and both inputs; any failure changes no state. */
    method ConfirmDelete(backend: Backend, env: Env) returns (toast: Toast)
      modifies this`deleteOpen, this`selected, this`deleteConfirmation, this`deletePassword
      modifies backend`docs, backend`blobs
      ensures var g := DeleteGuard(old(selected), old(deleteConfirmation), old(deletePassword), deleteSecret);
              && (g == NameMismatch ==> toast == ToastError(Some(NAME_MISMATCH)))
              && (g == WrongPassword ==> toast == ToastError(Some(WRONG_PASSWORD)))
              && (g != Proceed ==> unchanged(this) && unchanged(backend))
      ensures DeleteGuard(old(selected), old(deleteConfirmation), old(deletePassword), deleteSecret) == Proceed ==>
                var p := old(selected).value;
                var step := DeleteSpec(old(backend.State()), p.id, Some(p.data.imageUrl), env);
                && backend.State() == step.store
                && (step.result.Succeeded? ==>
                      && toast == ToastSuccess(step.result.message)
                      && !deleteOpen && selected.None? && deleteConfirmation == "" && deletePassword == "")
                && (step.result.Failed? ==> toast == ToastError(Some(step.result.error)) && unchanged(this))
    {
      if selected.None? || Some(deleteConfirmation) != selected.value.data.title {
        return ToastError(Some(NAME_MISMATCH));
      }
      if Some(deletePassword) != deleteSecret {
        return ToastError(Some(WRONG_PASSWORD));
      }
      var p := selected.value;
      var result := backend.DeleteProject(p.id, Some(p.data.imageUrl), env);
      if result.Succeeded? {
        toast := ToastSuccess(result.message);
        deleteOpen := false;
        selected := None;
        deleteConfirmation := "";
        deletePassword := "";
      } else {
        toast := ToastError(Some(result.error));
      }
    }
  }
}
