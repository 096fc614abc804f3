/** The public projects grid: one card per listed project, with its image,
    its stacks, and Live Demo and Code buttons whose targets come from the
    stored URLs. */
module ProjectList {
  import opened JsStrings
  import opened Actions

  /** The site's own page for a repository that is not public yet. */
  const COMING_SOON_ROUTE: string := "/coming-soon"

  /** What a card shows: `liveDemoHref` and `codeHref` are None when the
      button is not rendered. */
  datatype Card = Card(
    key: string,
    imageSrc: string,
    title: Option<string>,
    description: Option<string>,
    liveDemoHref: Option<string>,
    codeHref: Option<string>,
    badges: seq<string>)

  /** The Code button's target: the internal page for the placeholder, the
      stored URL otherwise. */
  function CodeHref(githubUrl: string): (href: string)
    ensures githubUrl == GITHUB_PLACEHOLDER ==> href == COMING_SOON_ROUTE
    ensures githubUrl != GITHUB_PLACEHOLDER ==> href == githubUrl
  {
    if githubUrl == GITHUB_PLACEHOLDER then COMING_SOON_ROUTE else githubUrl
  }

  /** The card for one project. Live Demo appears only for a non-empty demo
      URL and links to it unchanged; Code appears only for a non-empty GitHub
      URL; every stack is shown, in order. */
  function CardFor(p: Project): (c: Card)
    ensures c.key == p.id && c.title == p.data.title && c.description == p.data.description
    ensures c.imageSrc == p.data.imageUrl
    ensures c.liveDemoHref.Some? <==> Truthy(p.data.liveDemoUrl)
    ensures c.liveDemoHref.Some? ==> c.liveDemoHref.value == p.data.liveDemoUrl.value
    ensures c.codeHref.Some? <==> p.data.githubUrl != ""
    ensures c.codeHref.Some? ==> c.codeHref.value == CodeHref(p.data.githubUrl)
    ensures c.badges == p.data.stacks
  {
    Card(
      key := p.id,
      imageSrc := p.data.imageUrl,
      title := p.data.title,
      description := p.data.description,
      liveDemoHref := if Truthy(p.data.liveDemoUrl) then Some(p.data.liveDemoUrl.value) else None,
      codeHref := if p.data.githubUrl != "" then Some(CodeHref(p.data.githubUrl)) else None,
      badges := p.data.stacks)
  }

  /** `projects.map(...)`: one card per project, in the input order. */
  function Cards(ps: seq<Project>): (cs: seq<Card>)
    ensures |cs| == |ps|
    ensures forall i :: 0 <= i < |ps| ==> cs[i] == CardFor(ps[i])
  {
    if ps == [] then [] else [CardFor(ps[0])] + Cards(ps[1..])
  }

  /** A project added with a blank GitHub URL gets a Code button that leads
      to the coming-soon page. */
  lemma BlankGithubLinksToComingSoon(s: Store, form: Submission, env: Env)
    requires form.action == Some("add") && !Truthy(form.githubUrl)
    requires env.newId !in s.docs && env.writeFault.None? && !(HasNewImage(form.image) && UploadFails(env))
    ensures var docs := ProjectActionSpec(s, form, env).store.docs;
            && env.newId in docs
            && CardFor(Project(env.newId, docs[env.newId])).codeHref == Some(COMING_SOON_ROUTE)
  {
  }

  /** Rendering a listing of the store (as `getProjects` returns it) shows a
      card for every stored project, and a stored placeholder becomes a link
      to the coming-soon page. */
  lemma ListingShowsEveryProject(docs: map<string, ProjectData>, ps: seq<Project>, id: string)
    requires IdsOf(ps) == docs.Keys
    requires ListedFrom(ps, docs)
    requires id in docs
    ensures exists i :: 0 <= i < |ps| && Cards(ps)[i] == CardFor(Project(id, docs[id]))
    ensures docs[id].githubUrl == GITHUB_PLACEHOLDER ==>
              exists i :: 0 <= i < |ps| && Cards(ps)[i].key == id && Cards(ps)[i].codeHref == Some(COMING_SOON_ROUTE)
  {
    assert id in IdsOf(ps);
    var p :| p in ps && p.id == id;
    var i :| 0 <= i < |ps| && ps[i] == p;
    assert Cards(ps)[i] == CardFor(Project(id, docs[id]));
  }
}
