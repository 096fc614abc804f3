/** The add/edit project form: the stack selector (a list kept as an ordered
    set), the single tag choice, the hidden fields the form submits, and what
    the form does with the action's result. */
module AddProjectForm {
  import opened JsStrings
  import opened Actions

  const PREDEFINED_STACKS: seq<string> := [
    "React", "Next.js", "TypeScript", "JavaScript", "Node.js", "Python", "Firebase",
    "Tailwind CSS", "Prisma", "PostgreSQL", "MongoDB", "GraphQL", "Docker"
  ]

  const TAG_OPTIONS: seq<string> := ["Active", "Personal", "Corporate"]

  /** A notification shown to the operator. */
  datatype Toast = ToastSuccess(text: Option<string>) | ToastError(text: Option<string>)

  // ---------------------------------------------------------------------------
  // The selected labels as an ordered set

  predicate NoDuplicates(s: seq<string>) {
    forall i, j :: 0 <= i < j < |s| ==> s[i] != s[j]
  }

  lemma NoDuplicatesCons(x: string, s: seq<string>)
    requires x !in s && NoDuplicates(s)
    ensures NoDuplicates([x] + s)
  {
    forall i, j | 0 <= i < j < |[x] + s| ensures ([x] + s)[i] != ([x] + s)[j] {
      if i == 0 {
        assert ([x] + s)[j] == s[j - 1];
      }
    }
  }

  lemma NoDuplicatesAppend(s: seq<string>, x: string)
    requires x !in s && NoDuplicates(s)
    ensures NoDuplicates(s + [x])
  {
    forall i, j | 0 <= i < j < |s + [x]| ensures (s + [x])[i] != (s + [x])[j] {
      if j == |s| {
        assert (s + [x])[i] == s[i];
      }
    }
  }

  /** `p.filter(s => s !== x)`: every occurrence of `x` removed, every other
      label kept. */
  function Without(s: seq<string>, x: string): (r: seq<string>)
    ensures x !in r
    ensures forall y :: y != x ==> (y in r <==> y in s)
    ensures |r| <= |s|
  {
    if s == [] then []
    else if s[0] == x then Without(s[1..], x)
    else [s[0]] + Without(s[1..], x)
  }

  lemma {:induction false} WithoutConcat(s: seq<string>, t: seq<string>, x: string)
    ensures Without(s + t, x) == Without(s, x) + Without(t, x)
  {
    if s == [] {
      assert s + t == t;
    } else {
      var st := s + t;
      assert st[0] == s[0] && st[1..] == s[1..] + t;
      WithoutConcat(s[1..], t, x);
      if s[0] == x {
        assert Without(st, x) == Without(s[1..] + t, x);
        assert Without(s, x) == Without(s[1..], x);
      } else {
        assert Without(st, x) == [s[0]] + Without(s[1..] + t, x);
        assert Without(s, x) == [s[0]] + Without(s[1..], x);
      }
    }
  }

  /** Removing a label that is not there changes nothing. */
  lemma {:induction false} WithoutAbsent(s: seq<string>, x: string)
    requires x !in s
    ensures Without(s, x) == s
  {
    if s != [] {
      WithoutAbsent(s[1..], x);
      assert s == [s[0]] + s[1..];
    }
  }

  /** In a list without duplicates, removing a label deletes exactly its one
      position and keeps the others in order. */
  lemma {:induction false} WithoutAt(s: seq<string>, x: string, i: nat)
    requires NoDuplicates(s) && i < |s| && s[i] == x
    ensures Without(s, x) == s[..i] + s[i + 1..]
  {
    if i == 0 {
      assert x !in s[1..] by {
        forall j | 0 <= j < |s[1..]| ensures s[1..][j] != x {
          assert s[1..][j] == s[j + 1];
        }
      }
      WithoutAbsent(s[1..], x);
    } else {
      assert NoDuplicates(s[1..]) by {
        forall a, b | 0 <= a < b < |s[1..]| ensures s[1..][a] != s[1..][b] {
          assert s[1..][a] == s[a + 1] && s[1..][b] == s[b + 1];
        }
      }
      WithoutAt(s[1..], x, i - 1);
      assert s[0] != x;
      assert s[..i] == [s[0]] + s[1..][..i - 1];
      assert s[i + 1..] == s[1..][i..];
    }
  }

  lemma {:induction false} WithoutKeepsNoDuplicates(s: seq<string>, x: string)
    requires NoDuplicates(s)
    ensures NoDuplicates(Without(s, x))
  {
    if s != [] {
      assert NoDuplicates(s[1..]) by {
        forall a, b | 0 <= a < b < |s[1..]| ensures s[1..][a] != s[1..][b] {
          assert s[1..][a] == s[a + 1] && s[1..][b] == s[b + 1];
        }
      }
      WithoutKeepsNoDuplicates(s[1..], x);
      if s[0] != x {
        assert s[0] !in s[1..] by {
          forall j | 0 <= j < |s[1..]| ensures s[1..][j] != s[0] {
            assert s[1..][j] == s[j + 1];
          }
        }
        NoDuplicatesCons(s[0], Without(s[1..], x));
      }
    }
  }

  /** Choosing a predefined stack: removed if selected, else appended. */
  function Toggle(s: seq<string>, x: string): (r: seq<string>)
    ensures x in r <==> x !in s
    ensures forall y :: y != x ==> (y in r <==> y in s)
    ensures x !in s ==> r == s + [x]
    ensures x in s ==> r == Without(s, x)
    ensures NoDuplicates(s) && x in s ==> exists i :: 0 <= i < |s| && s[i] == x && r == s[..i] + s[i + 1..]
  {
    if x in s then
      WithoutCutsOne(s, x);
      Without(s, x)
    else s + [x]
  }

  /** Deselecting a label of a duplicate-free selection cuts out the one
      position that holds it. */
  lemma WithoutCutsOne(s: seq<string>, x: string)
    requires x in s
    ensures NoDuplicates(s) ==> exists i :: 0 <= i < |s| && s[i] == x && Without(s, x) == s[..i] + s[i + 1..]
  {
    if NoDuplicates(s) {
      var i :| 0 <= i < |s| && s[i] == x;
      WithoutAt(s, x, i);
    }
  }

  /** Choosing an unselected stack twice restores the selection. */
  lemma ToggleTwiceRestores(s: seq<string>, x: string)
    requires x !in s
    ensures Toggle(Toggle(s, x), x) == s
  {
    WithoutConcat(s, [x], x);
    WithoutAbsent(s, x);
    assert Without([x], x) == [];
  }

  lemma ToggleKeepsNoDuplicates(s: seq<string>, x: string)
    requires NoDuplicates(s)
    ensures NoDuplicates(Toggle(s, x))
  {
    if x in s {
      WithoutKeepsNoDuplicates(s, x);
    } else {
      NoDuplicatesAppend(s, x);
    }
  }

  /** Enter in the stack search box: the trimmed text is appended when it is
      non-empty and not yet selected. */
  function AddTyped(s: seq<string>, input: string): (r: seq<string>)
    ensures Trim(input) != "" && Trim(input) !in s ==> r == s + [Trim(input)]
    ensures Trim(input) == "" || Trim(input) in s ==> r == s
    ensures NoDuplicates(s) ==> NoDuplicates(r)
  {
    var newStack := Trim(input);
    if newStack != "" && newStack !in s then
      assert NoDuplicates(s) ==> NoDuplicates(s + [newStack]) by {
        if NoDuplicates(s) {
          NoDuplicatesAppend(s, newStack);
        }
      }
      s + [newStack]
    else s
  }

  // ---------------------------------------------------------------------------
  // Serialisation of the selection and the server's parse of it

  /** A label the comma-joined field carries intact. */
  predicate IsLabel(x: string) {
    x != "" && CommaFree(x) && IsTrimmed(x)
  }

  predicate AllLabels(xs: seq<string>) {
    forall x :: x in xs ==> IsLabel(x)
  }

  /** Joining the selection with ',' and parsing it on the server gives the
      selection back when every label is non-empty, comma-free and trimmed. */
  lemma {:induction false} LabelsRoundTrip(xs: seq<string>)
    requires AllLabels(xs)
    ensures ParseList(Some(Join(xs))) == xs
  {
    if xs != [] {
      assert IsLabel(xs[0]);
      JoinStartsNonEmpty(xs);
      forall i | 0 <= i < |xs| ensures CommaFree(xs[i]) {
        assert xs[i] in xs;
      }
      SplitJoin(xs);
      TrimsLabels(xs, ParseList(Some(Join(xs))));
    }
  }

  /** A join whose first label is non-empty is non-empty. */
  lemma JoinStartsNonEmpty(xs: seq<string>)
    requires xs != [] && xs[0] != ""
    ensures Join(xs) != ""
  {
    if |xs| > 1 {
      assert Join(xs) == xs[0] + "," + Join(xs[1..]);
    }
  }

  /** Trimming each of a list of labels leaves the list as it is. */
  lemma TrimsLabels(xs: seq<string>, r: seq<string>)
    requires AllLabels(xs)
    requires |r| == |xs| && forall i :: 0 <= i < |r| ==> r[i] == Trim(xs[i])
    ensures r == xs
  {
    forall i | 0 <= i < |xs| ensures r[i] == xs[i] {
      assert xs[i] in xs;
    }
  }

  /** The comma-joined field of a selection parses back to it when the labels
      are well formed. */
  lemma LabelsField(xs: seq<string>)
    ensures AllLabels(xs) ==> ParseList(Some(Join(xs))) == xs
  {
    if AllLabels(xs) {
      LabelsRoundTrip(xs);
    }
  }

  /** A label holding a comma comes back as two labels. */
  lemma CommaInLabelSplitsIt(a: string, b: string)
    requires CommaFree(a) && CommaFree(b)
    ensures ParseList(Some(Join([a + "," + b]))) == [Trim(a), Trim(b)]
  {
    assert Join([a + "," + b]) == Join([a, b]) by {
      assert Join([a, b]) == a + "," + Join([b]);
    }
    SplitJoin([a, b]);
  }

  lemma PredefinedStackIsLabel(i: nat)
    requires i < |PREDEFINED_STACKS|
    ensures IsLabel(PREDEFINED_STACKS[i])
  {
  }

  /** The predefined stacks are well-formed labels, so the whole list
      survives the comma-joined field. */
  lemma PredefinedStacksAreLabels()
    ensures AllLabels(PREDEFINED_STACKS)
    ensures ParseList(Some(Join(PREDEFINED_STACKS))) == PREDEFINED_STACKS
  {
    forall x | x in PREDEFINED_STACKS ensures IsLabel(x) {
      var i :| 0 <= i < |PREDEFINED_STACKS| && PREDEFINED_STACKS[i] == x;
      PredefinedStackIsLabel(i);
    }
    LabelsRoundTrip(PREDEFINED_STACKS);
  }

  /** The tag options are well-formed labels, so each survives the tags
      field. */
  lemma TagOptionsAreLabels()
    ensures AllLabels(TAG_OPTIONS)
    ensures forall x :: x in TAG_OPTIONS ==> ParseList(Some(Join([x]))) == [x]
  {
    assert IsLabel("Active") && IsLabel("Personal") && IsLabel("Corporate");
    forall x | x in TAG_OPTIONS ensures ParseList(Some(Join([x]))) == [x] {
      LabelsRoundTrip([x]);
    }
  }

  /** Two labels joined by a comma form a trimmed, non-empty text that is
      neither of them. */
  lemma CommaPairIsTrimmed(x: string, y: string)
    requires IsLabel(x) && IsLabel(y)
    ensures IsTrimmed(x + "," + y) && x + "," + y != "" && x + "," + y != x
  {
    var typed := x + "," + y;
    assert typed[0] == x[0] && typed[|typed| - 1] == y[|y| - 1];
    assert |typed| > |x|;
  }

  /** A typed label holding a comma gets past the duplicate check and puts a
      duplicate into the stored stacks: with x selected, typing "x,y" stores
      x, x, y. */
  lemma CommaLabelStoresDuplicate(x: string, y: string)
    requires IsLabel(x) && IsLabel(y)
    ensures AddTyped([x], x + "," + y) == [x, x + "," + y]
    ensures ParseList(Some(Join(AddTyped([x], x + "," + y)))) == [x, x, y]
    ensures !NoDuplicates(ParseList(Some(Join(AddTyped([x], x + "," + y)))))
  {
    var typed := x + "," + y;
    CommaPairIsTrimmed(x, y);
    assert Trim(typed) == typed;
    assert AddTyped([x], typed) == [x, typed];
    assert Join([x, typed]) == Join([x, x, y]) by {
      assert Join([x, x, y]) == x + "," + Join([x, y]);
      assert Join([x, y]) == x + "," + Join([y]);
    }
    assert AllLabels([x, x, y]);
    LabelsRoundTrip([x, x, y]);
  }

  /** `"React,Go,SQL"` parses to three stacks. */
  lemma ExampleStacksField()
    ensures ParseList(Some("React,Go,SQL")) == ["React", "Go", "SQL"]
  {
    var xs := ["React", "Go", "SQL"];
    assert AllLabels(xs);
    assert Join(xs) == "React,Go,SQL" by {
      assert Join(xs[1..]) == "Go" + "," + Join(xs[2..]);
    }
    LabelsRoundTrip(xs);
  }

  // ---------------------------------------------------------------------------
  // The submitted form

  /** What the operator typed into the visible inputs; `image` is None when
      no file was chosen. */
  datatype Typed = Typed(title: string, description: string, liveDemoUrl: string, githubUrl: string, image: Option<ImageFile>)

  /** An untouched file input still submits a nameless, empty file. */
  const NO_FILE: ImageFile := ImageFile("", 0)

  /** The form data the form posts: `action` and `id` from whether a project
      is being edited, the selections joined with ',', the typed inputs. */
  function SubmissionOf(projectToEdit: Option<Project>, stacks: seq<string>, tags: seq<string>, typed: Typed): (f: Submission)
    ensures f.action == Some("update") <==> projectToEdit.Some?
    ensures f.action == Some("add") <==> projectToEdit.None?
    ensures f.id.Some? <==> projectToEdit.Some?
    ensures projectToEdit.Some? ==> f.id == Some(projectToEdit.value.id)
    ensures f.title == Some(typed.title) && f.description == Some(typed.description)
    ensures f.liveDemoUrl == Some(typed.liveDemoUrl) && f.githubUrl == Some(typed.githubUrl)
    ensures AllLabels(stacks) ==> ParseList(f.stacks) == stacks
    ensures AllLabels(tags) ==> ParseList(f.tags) == tags
    ensures HasNewImage(f.image) <==> typed.image.Some? && typed.image.value.size > 0
  {
    LabelsField(stacks);
    LabelsField(tags);
    Submission(
      action := Some(if projectToEdit.Some? then "update" else "add"),
      id := if projectToEdit.Some? then Some(projectToEdit.value.id) else None,
      title := Some(typed.title),
      description := Some(typed.description),
      stacks := Some(Join(stacks)),
      tags := Some(Join(tags)),
      liveDemoUrl := Some(typed.liveDemoUrl),
      githubUrl := Some(typed.githubUrl),
      image := Some(typed.image.GetOr(NO_FILE)))
  }

  /** Editing a project whose labels are well formed and choosing no new file
      stores the labels as selected and the project's id as its image URL. */
  lemma EditWithoutFileStoresSelection(s: Store, p: Project, stacks: seq<string>, tags: seq<string>, typed: Typed, env: Env)
    requires p.id != "" && p.id in s.docs && env.writeFault.None?
    requires AllLabels(stacks) && AllLabels(tags) && typed.image.None?
    ensures var r := ProjectActionSpec(s, SubmissionOf(Some(p), stacks, tags, typed), env);
            && r.result == Succeeded(Some(UPDATED))
            && r.store.docs[p.id].stacks == stacks
            && r.store.docs[p.id].tags == tags
            && r.store.docs[p.id].imageUrl == p.id
  {
  }

  /** What the form shows for an action result: a success closes the dialog,
      an error leaves it open. */
  function ResultToast(state: ActionState): (t: Option<Toast>)
    ensures state.Succeeded? ==> t == Some(ToastSuccess(state.message))
    ensures state.Failed? && state.error != "" ==> t == Some(ToastError(Some(state.error)))
    ensures state.Failed? && state.error == "" ==> t.None?
  {
    match state
    case Succeeded(msg) => Some(ToastSuccess(msg))
    case Failed(e) => if e != "" then Some(ToastError(Some(e))) else None
  }

  // ---------------------------------------------------------------------------
  // The form component's state

  class ProjectForm {
    const projectToEdit: Option<Project>
    var selectedStacks: seq<string>
    var selectedTags: seq<string>
    var commandInput: string
    /** The open flag of the dialog the form sits in (`setDialogOpen`). */
    var dialogOpen: bool

    constructor (projectToEdit: Option<Project>)
      ensures this.projectToEdit == projectToEdit
      ensures selectedStacks == if projectToEdit.Some? then projectToEdit.value.data.stacks else []
      ensures selectedTags == if projectToEdit.Some? then projectToEdit.value.data.tags else []
      ensures commandInput == "" && dialogOpen
    {
      this.projectToEdit := projectToEdit;
      selectedStacks := if projectToEdit.Some? then projectToEdit.value.data.stacks else [];
      selectedTags := if projectToEdit.Some? then projectToEdit.value.data.tags else [];
      commandInput := "";
      dialogOpen := true;
    }

    method SetCommandInput(value: string)
      modifies this`commandInput
      ensures commandInput == value
    {
      commandInput := value;
    }

    /** `handleStackKeyDown`: Enter with text in the box adds the trimmed text
        if new and clears the box; any other key does nothing. */
    method StackKeyDown(key: string)
      modifies this`selectedStacks, this`commandInput
      ensures key == "Enter" && old(commandInput) != "" ==>
                selectedStacks == AddTyped(old(selectedStacks), old(commandInput)) && commandInput == ""
      ensures !(key == "Enter" && old(commandInput) != "") ==>
                selectedStacks == old(selectedStacks) && commandInput == old(commandInput)
      ensures NoDuplicates(old(selectedStacks)) ==> NoDuplicates(selectedStacks)
    {
      if key == "Enter" && commandInput != "" {
        var newStack := Trim(commandInput);
        if newStack != "" && newStack !in selectedStacks {
          selectedStacks := selectedStacks + [newStack];
        }
        commandInput := "";
      }
    }

    /** Choosing a predefined stack in the list toggles it. */
    method SelectPredefined(stack: string)
      requires stack in PREDEFINED_STACKS
      modifies this`selectedStacks
      ensures selectedStacks == Toggle(old(selectedStacks), stack)
      ensures NoDuplicates(old(selectedStacks)) ==> NoDuplicates(selectedStacks)
      ensures AllLabels(old(selectedStacks)) ==> AllLabels(selectedStacks)
    {
      if stack in selectedStacks {
        if NoDuplicates(selectedStacks) {
          WithoutKeepsNoDuplicates(selectedStacks, stack);
        }
        selectedStacks := Without(selectedStacks, stack);
      } else {
        if NoDuplicates(selectedStacks) {
          NoDuplicatesAppend(selectedStacks, stack);
        }
        PredefinedStacksAreLabels();
        selectedStacks := selectedStacks + [stack];
      }
    }

    /** The remove button on a selected stack's badge. */
    method RemoveBadge(stack: string)
      modifies this`selectedStacks
      ensures selectedStacks == Without(old(selectedStacks), stack)
      ensures NoDuplicates(old(selectedStacks)) ==> NoDuplicates(selectedStacks)
    {
      if NoDuplicates(selectedStacks) {
        WithoutKeepsNoDuplicates(selectedStacks, stack);
      }
      selectedStacks := Without(selectedStacks, stack);
    }

    /** Choosing a tag (one of the select's options) replaces the selection
        with that one tag, which the tags field carries intact. */
    method SelectTag(value: string)
      requires value in TAG_OPTIONS
      modifies this`selectedTags
      ensures selectedTags == [value]
      ensures AllLabels(selectedTags)
      ensures ParseList(Some(Join(selectedTags))) == selectedTags
    {
      TagOptionsAreLabels();
      selectedTags := [value];
    }

    /** The effect run on a new action result. */
    method HandleResult(state: ActionState) returns (toast: Option<Toast>)
      modifies this`dialogOpen
      ensures toast == ResultToast(state)
      ensures dialogOpen == (if state.Succeeded? then false else old(dialogOpen))
    {
      toast := ResultToast(state);
      if state.Succeeded? {
        dialogOpen := false;
      }
    }

    /** Submitting: the browser refuses an empty title or description (both
        inputs are required); otherwise the action runs on the form data and
        its result is handled. */
    method Submit(backend: Backend, typed: Typed, env: Env) returns (toast: Option<Toast>)
      requires projectToEdit.None? ==> env.newId !in backend.docs
      modifies this`dialogOpen, backend`docs, backend`blobs
      ensures typed.title == "" || typed.description == "" ==>
                toast.None? && dialogOpen == old(dialogOpen) && backend.State() == old(backend.State())
      ensures typed.title != "" && typed.description != "" ==>
                var step := ProjectActionSpec(old(backend.State()), SubmissionOf(projectToEdit, selectedStacks, selectedTags, typed), env);
                && backend.State() == step.store
                && toast == ResultToast(step.result)
                && dialogOpen == (if step.result.Succeeded? then false else old(dialogOpen))
    {
      if typed.title == "" || typed.description == "" {
        return None;
      }
      var form := SubmissionOf(projectToEdit, selectedStacks, selectedTags, typed);
      var result := backend.ProjectAction(form, env);
      toast := HandleResult(result);
    }
  }
}
