/**
 * The entity model of src/app.ts: the `ProjectStatus` enum, the `Project` record, and the status
 * filter that each project list applies to the store's snapshot.
 */
module Projects {

  /** The enum exactly as declared, including the misspelt second member. */
  datatype ProjectStatus = Active | Fininshed

  /**
   * The number a project carries for `people`: the JavaScript number `+text` made from the raw
   * field text. The float conversion itself is not modelled, so the text is kept.
   */
  datatype PeopleCount = UnaryPlus(text: string)

  datatype Project = Project(
    id: string,
    title: string,
    description: string,
    people: PeopleCount,
    status: ProjectStatus)

  /**
   * Every project's id is `Date.now.toString()`: the source text of the function `Date.now`, not
   * a time stamp. It is the same string for every project; the text below is the one V8 gives.
   */
  const PROJECT_ID := "function now() { [native code] }"

  /** `new Project(title, description, people, status)`. */
  function NewProject(title: string, description: string, people: PeopleCount, status: ProjectStatus): (p: Project)
    ensures p.title == title && p.description == description && p.people == people
    ensures p.status == status && p.id == PROJECT_ID
  {
    Project(PROJECT_ID, title, description, people, status)
  }

  /** The reverse enum mapping `ProjectStatus[status]`: the member's declared name. */
  function StatusName(status: ProjectStatus): (name: string)
    ensures |name| > 0 && 'A' <= name[0] <= 'Z'
    ensures name == "Active" <==> status == Active
  {
    match status
    case Active => "Active"
    case Fininshed => "Fininshed"
  }

  function LowerChar(c: char): (d: char)
    ensures 'A' <= c <= 'Z' ==> d as int == c as int + 32
    ensures !('A' <= c <= 'Z') ==> d == c
  {
    if 'A' <= c <= 'Z' then (c as int + 32) as char else c
  }

  /** `toLowerCase()`, restricted to ASCII letters (it is only applied to the enum names). */
  function ToLower(s: string): (r: string)
    ensures |r| == |s|
    ensures forall i :: 0 <= i < |s| ==> r[i] == LowerChar(s[i])
  {
    if s == [] then [] else [LowerChar(s[0])] + ToLower(s[1..])
  }

  /** The value each list's `type` is compared with: "active", and "fininshed" as spelt. */
  function StatusKey(status: ProjectStatus): (key: string)
    ensures key == "active" <==> status == Active
    ensures key != "finished"
  {
    match status
    case Active => "active"
    case Fininshed => "fininshed"
  }

  /** The key is the lower-cased enum name, `ProjectStatus[status].toString().toLowerCase()`. */
  lemma StatusKeyIsLowerName(status: ProjectStatus)
    ensures StatusKey(status) == ToLower(StatusName(status))
  {
    if status == Active {
      LowerCharWise("Active", "active");
    } else {
      LowerCharWise("Fininshed", "fininshed");
    }
  }

  /** `t` is the lower-cased `s` when it is so character by character. */
  lemma LowerCharWise(s: string, t: string)
    requires |s| == |t| && forall i :: 0 <= i < |s| ==> LowerChar(s[i]) == t[i]
    ensures ToLower(s) == t
  {
    var r := ToLower(s);
    assert |r| == |t| && forall i :: 0 <= i < |r| ==> r[i] == t[i];
  }

  /** A list type is either 'active' or 'finished'. */
  type ListKind = s: string | s == "active" || s == "finished" witness "active"

  /** The filter predicate of a project list of the given kind. */
  predicate Matches(p: Project, kind: string): (ok: bool)
    ensures ok <==> (p.status == Active && kind == "active") || (p.status == Fininshed && kind == "fininshed")
  {
    StatusKey(p.status) == kind
  }

  /** Only Active projects match the 'active' list, and nothing matches the 'finished' list. */
  lemma MatchesExactly(p: Project)
    ensures Matches(p, "active") <==> p.status == Active
    ensures !Matches(p, "finished")
  {
    assert |"fininshed"| != |"finished"|;
  }

  /**
   * `projects.filter(...)` in a project list's listener: the projects of the snapshot that match
   * the list's kind, in snapshot order.
   */
  function Relevant(projects: seq<Project>, kind: string): (r: seq<Project>)
    ensures |r| <= |projects|
  {
    if projects == [] then []
    else if Matches(projects[0], kind) then [projects[0]] + Relevant(projects[1..], kind)
    else Relevant(projects[1..], kind)
  }

  /** A project is kept exactly when it is in the snapshot and matches the kind. */
  lemma {:induction false} RelevantMembers(projects: seq<Project>, kind: string, p: Project)
    ensures p in Relevant(projects, kind) <==> p in projects && Matches(p, kind)
  {
    if projects != [] {
      RelevantMembers(projects[1..], kind, p);
      assert projects == [projects[0]] + projects[1..];
    }
  }

  /** Filtering distributes over concatenation, so it keeps the snapshot's order. */
  lemma {:induction false} RelevantAppend(a: seq<Project>, b: seq<Project>, kind: string)
    ensures Relevant(a + b, kind) == Relevant(a, kind) + Relevant(b, kind)
  {
    if a == [] {
      assert a + b == b;
    } else {
      assert (a + b)[0] == a[0];
      assert (a + b)[1..] == a[1..] + b;
      RelevantAppend(a[1..], b, kind);
    }
  }

  /** Appending one project to the snapshot appends it to the list exactly when it matches. */
  lemma RelevantSnoc(projects: seq<Project>, p: Project, kind: string)
    ensures Relevant(projects + [p], kind)
         == Relevant(projects, kind) + (if Matches(p, kind) then [p] else [])
  {
    RelevantAppend(projects, [p], kind);
    assert [p][1..] == [];
  }

  /** A snapshot whose projects all match passes the filter whole. */
  lemma {:induction false} RelevantAllMatch(projects: seq<Project>, kind: string)
    requires forall p :: p in projects ==> Matches(p, kind)
    ensures Relevant(projects, kind) == projects
  {
    if projects != [] {
      assert projects[0] in projects;
      RelevantAllMatch(projects[1..], kind);
      assert [projects[0]] + projects[1..] == projects;
    }
  }

  /**
   * Because the enum member is spelt `Fininshed`, the 'finished' list receives the empty
   * sequence from every snapshot.
   */
  lemma {:induction false} FinishedListAlwaysEmpty(projects: seq<Project>)
    ensures Relevant(projects, "finished") == []
  {
    if projects != [] {
      MatchesExactly(projects[0]);
      FinishedListAlwaysEmpty(projects[1..]);
    }
  }

  /** When every project is Active, the 'active' list receives the whole snapshot. */
  lemma ActiveListGetsAllActive(projects: seq<Project>)
    requires forall p :: p in projects ==> p.status == Active
    ensures Relevant(projects, "active") == projects
  {
    forall p | p in projects ensures Matches(p, "active") {
      MatchesExactly(p);
    }
    RelevantAllMatch(projects, "active");
  }
}
