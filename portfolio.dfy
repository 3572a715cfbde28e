/** The portfolio accessors: read-only lookups over the profile document the tools load
    once at start-up. The document itself is a parameter (`PortfolioData`); its
    sections other than the project list are opaque values. */
module Portfolio {

  import opened Wrappers
  import opened Js
  import opened Lists

  /** A skill tag: an internal `key` and a display `label` (`labelText` here, `label`
      being a Dafny keyword). */
  datatype Skill = Skill(key: string, labelText: string)

  /** A project record. `details` stands for the record's remaining fields, which only
      travel through to the language model. */
  datatype Project = Project(title: string, shortDesc: string, skills: seq<Skill>, details: JsValue)

  /** What the project listing keeps of a project. */
  datatype Summary = Summary(title: string, shortDesc: string, skills: seq<Skill>)

  datatype PortfolioData = PortfolioData(
    introduction: JsValue,
    educations: JsValue,
    skills: JsValue,
    projects: seq<Project>,
    experiences: JsValue,
    extracurricularActivities: JsValue,
    socialLinks: JsValue)

  /** What a portfolio tool returns. */
  datatype ToolOutput =
    | Text(message: string)
    | Record(project: Project)
    | Records(projects: seq<Project>)
    | Summaries(summaries: seq<Summary>)
    | Static(value: JsValue)

  /** A tool call either returns or throws a `TypeError` (a non-string argument meeting
      `toLowerCase`). */
  datatype Invocation = Returned(output: ToolOutput) | TypeError

  /** Truthiness of a tool's result: records and arrays are objects, hence truthy even
      when empty. */
  predicate IsTruthy(o: ToolOutput) {
    match o
    case Text(m) => m != ""
    case Static(v) => Truthy(v)
    case _ => true
  }

  const PROVIDE_TITLE := "Please provide a project title"
  const PROVIDE_SKILL := "Please provide a skill name"

  function ProjectNotFound(title: string): string {
    "Project \"" + title + "\" not found. Please check the project name and try again."
  }

  function NoProjectsUsing(skill: string): string {
    "No projects found using \"" + skill + "\". Please check the skill name and try again."
  }

  /** Both not-found replies quote what the caller asked for. */
  lemma NotFoundRepliesQuoteTheQuery(q: string)
    ensures Contains(ProjectNotFound(q), q)
    ensures Contains(NoProjectsUsing(q), q)
  {
    assert OccursAt(ProjectNotFound(q), q, 9);
    assert OccursAt(NoProjectsUsing(q), q, 25);
  }

  // ---------------------------------------------------------------------------
  // getallprojects
  // ---------------------------------------------------------------------------

  function Summarize(p: Project): Summary {
    Summary(p.title, p.shortDesc, p.skills)
  }

  /** One summary per stored project, in stored order, each carrying only the title,
      the short description and the skills of its project. */
  function GetAllProjects(projects: seq<Project>): (r: seq<Summary>)
    ensures |r| == |projects|
    ensures forall i :: 0 <= i < |r| ==>
              r[i].title == projects[i].title && r[i].shortDesc == projects[i].shortDesc &&
              r[i].skills == projects[i].skills
  {
    if projects == [] then [] else [Summarize(projects[0])] + GetAllProjects(projects[1..])
  }

  // ---------------------------------------------------------------------------
  // getspecificproject
  // ---------------------------------------------------------------------------

  /** The `find` callback: titles compared after lower-casing both sides. */
  predicate TitleMatches(p: Project, title: string) {
    LowerStr(p.title) == LowerStr(title)
  }

  /** `Array.prototype.find` from index `i`: the first matching position. */
  function FindTitle(projects: seq<Project>, title: string, i: nat): (r: Option<nat>)
    requires i <= |projects|
    ensures r.Some? ==> i <= r.value < |projects| && TitleMatches(projects[r.value], title)
    ensures r.Some? ==> forall j :: i <= j < r.value ==> !TitleMatches(projects[j], title)
    ensures r.None? ==> forall j :: i <= j < |projects| ==> !TitleMatches(projects[j], title)
    decreases |projects| - i
  {
    if i == |projects| then None
    else if TitleMatches(projects[i], title) then Some(i)
    else FindTitle(projects, title, i + 1)
  }

  /** The lookup sees the requested title only through its lower-cased form. */
  lemma {:induction false} FindTitleFolds(projects: seq<Project>, t: string, u: string, i: nat)
    requires i <= |projects|
    requires LowerStr(t) == LowerStr(u)
    ensures FindTitle(projects, t, i) == FindTitle(projects, u, i)
    decreases |projects| - i
  {
    if i < |projects| {
      FindTitleFolds(projects, t, u, i + 1);
    }
  }

  /** `getspecificproject(projectTitle)`. A falsy title gets the prompt; a string title
      gets the first project whose title equals it ignoring case, or the not-found reply;
      any other truthy value throws as soon as the callback runs, that is whenever the
      list is not empty. */
  function GetSpecificProject(projects: seq<Project>, title: JsValue): (r: Invocation)
    ensures !Truthy(title) ==> r == Returned(Text(PROVIDE_TITLE))
    ensures Truthy(title) && title.JsString? ==>
              r.Returned? &&
              (r.output.Record? <==> exists i :: 0 <= i < |projects| && TitleMatches(projects[i], title.s)) &&
              (r.output.Record? ==> exists i :: 0 <= i < |projects| && r.output.project == projects[i] &&
                                     TitleMatches(projects[i], title.s) &&
                                     forall j :: 0 <= j < i ==> !TitleMatches(projects[j], title.s)) &&
              (!r.output.Record? ==> r.output == Text(ProjectNotFound(title.s)))
    ensures Truthy(title) && title.JsOther? ==>
              r == if projects == [] then Returned(Text(ProjectNotFound(title.text))) else TypeError
  {
    if !Truthy(title) then Returned(Text(PROVIDE_TITLE))
    else match title
      case JsOther(_, text) =>
        if projects == [] then Returned(Text(ProjectNotFound(text))) else TypeError
      case JsString(t) =>
        match FindTitle(projects, t, 0)
        case Some(i) => Returned(Record(projects[i]))
        case None => Returned(Text(ProjectNotFound(t)))
  }

  /** Every case variant of a title gets the same record. */
  lemma SpecificProjectIgnoresCase(projects: seq<Project>, t: string, u: string)
    requires LowerStr(t) == LowerStr(u)
    ensures GetSpecificProject(projects, JsString(t)).Returned?
    ensures GetSpecificProject(projects, JsString(t)).output.Record? <==>
            GetSpecificProject(projects, JsString(u)).output.Record?
    ensures GetSpecificProject(projects, JsString(t)).output.Record? ==>
            GetSpecificProject(projects, JsString(t)) == GetSpecificProject(projects, JsString(u))
  {
    FindTitleFolds(projects, t, u, 0);
  }

  /** Asking for a stored title, in any case, finds a project with that title: the
      stored one or an earlier one that equals it ignoring case. */
  lemma StoredTitleIsFound(projects: seq<Project>, i: nat, u: string)
    requires i < |projects| && projects[i].title != ""
    requires LowerStr(u) == LowerStr(projects[i].title)
    ensures var r := GetSpecificProject(projects, JsString(u));
            r.Returned? && r.output.Record? && r.output.project in projects[..i + 1] &&
            LowerStr(r.output.project.title) == LowerStr(projects[i].title)
  {
    assert TitleMatches(projects[i], u);
    var k := FindTitle(projects, u, 0);
    assert k.Some? && k.value <= i;
    assert projects[k.value] == projects[..i + 1][k.value];
  }

  // ---------------------------------------------------------------------------
  // getprojectsbyskill
  // ---------------------------------------------------------------------------

  /** The `some` callback: a skill matches by key or by label, ignoring case. */
  predicate SkillMatches(sk: Skill, name: string) {
    LowerStr(sk.key) == LowerStr(name) || LowerStr(sk.labelText) == LowerStr(name)
  }

  predicate UsesSkill(p: Project, name: string) {
    exists k :: 0 <= k < |p.skills| && SkillMatches(p.skills[k], name)
  }

  /** The `filter`: exactly the projects that use the skill, each as often as it is
      stored, in stored order. */
  function ProjectsUsing(projects: seq<Project>, name: string): (r: seq<Project>)
    ensures IsSubsequence(r, projects)
    ensures forall p :: p in r <==> p in projects && UsesSkill(p, name)
    ensures forall p :: multiset(r)[p] == if UsesSkill(p, name) then multiset(projects)[p] else 0
  {
    if projects == [] then []
    else
      var rest := ProjectsUsing(projects[1..], name);
      assert projects == [projects[0]] + projects[1..];
      if UsesSkill(projects[0], name) then
        ConsSubsequence(projects[0], rest, projects[1..]);
        [projects[0]] + rest
      else
        ConsSubsequence(projects[0], rest, projects[1..]);
        rest
  }

  /** The skill lookup sees the requested name only through its lower-cased form. */
  lemma {:induction false} ProjectsUsingFolds(projects: seq<Project>, t: string, u: string)
    requires LowerStr(t) == LowerStr(u)
    ensures ProjectsUsing(projects, t) == ProjectsUsing(projects, u)
  {
    if projects != [] {
      ProjectsUsingFolds(projects[1..], t, u);
      assert UsesSkill(projects[0], t) <==> UsesSkill(projects[0], u) by {
        forall k | 0 <= k < |projects[0].skills|
          ensures SkillMatches(projects[0].skills[k], t) <==> SkillMatches(projects[0].skills[k], u)
        {
        }
      }
    }
  }

  /** `getprojectsbyskill(skillName)`. A falsy name gets the prompt; a string name gets
      the matching projects, or the not-found reply when there are none; any other truthy
      value throws as soon as a `some` callback runs, that is when some project has a
      skill. */
  function GetProjectsBySkill(projects: seq<Project>, name: JsValue): (r: Invocation)
    ensures !Truthy(name) ==> r == Returned(Text(PROVIDE_SKILL))
    ensures Truthy(name) && name.JsString? ==>
              r.Returned? &&
              (r.output == Text(NoProjectsUsing(name.s)) <==> forall p :: p in projects ==> !UsesSkill(p, name.s)) &&
              (r.output != Text(NoProjectsUsing(name.s)) ==>
                 r.output.Records? && r.output.projects == ProjectsUsing(projects, name.s) && r.output.projects != [])
    ensures Truthy(name) && name.JsOther? ==>
              r == if exists i :: 0 <= i < |projects| && projects[i].skills != [] then TypeError
                   else Returned(Text(NoProjectsUsing(name.text)))
  {
    if !Truthy(name) then Returned(Text(PROVIDE_SKILL))
    else match name
      case JsOther(_, text) =>
        if exists i :: 0 <= i < |projects| && projects[i].skills != [] then TypeError
        else Returned(Text(NoProjectsUsing(text)))
      case JsString(s) =>
        var matching := ProjectsUsing(projects, s);
        if matching == [] then Returned(Text(NoProjectsUsing(s))) else Returned(Records(matching))
  }

  /** Every case variant of a skill name gets the same reply when some project uses it. */
  lemma ProjectsBySkillIgnoresCase(projects: seq<Project>, t: string, u: string)
    requires LowerStr(t) == LowerStr(u)
    requires exists p :: p in projects && UsesSkill(p, t)
    ensures GetProjectsBySkill(projects, JsString(t)) == GetProjectsBySkill(projects, JsString(u))
  {
    ProjectsUsingFolds(projects, t, u);
  }
}
