/**
 * The stateful part of src/app.ts: the observable project store, the per-status project lists
 * that subscribe to it, and the input form whose submit handler feeds it.
 */
module App {
  import opened Wrappers
  import opened Validation
  import opened Projects

  /** One call of a listener: which list was called, and the snapshot it was given. */
  datatype Notification = Notification(listener: ProjectList, snapshot: seq<Project>)

  /** The calls one notification round makes: every registration in order, with one snapshot. */
  function Fanout(listeners: seq<ProjectList>, snapshot: seq<Project>): (calls: seq<Notification>)
    ensures |calls| == |listeners|
  {
    if listeners == [] then []
    else [Notification(listeners[0], snapshot)] + Fanout(listeners[1..], snapshot)
  }

  /** Call `i` of a round goes to registration `i`, with the round's snapshot. */
  lemma {:induction false} FanoutAt(listeners: seq<ProjectList>, snapshot: seq<Project>, i: nat)
    requires i < |listeners|
    ensures Fanout(listeners, snapshot)[i] == Notification(listeners[i], snapshot)
  {
    if i > 0 {
      FanoutAt(listeners[1..], snapshot, i - 1);
    }
  }

  /** One more registration adds one call at the end of the round. */
  lemma FanoutSnoc(listeners: seq<ProjectList>, i: nat, snapshot: seq<Project>)
    requires i < |listeners|
    ensures Fanout(listeners[..i + 1], snapshot) == Fanout(listeners[..i], snapshot) + [Notification(listeners[i], snapshot)]
  {
    var longer, shorter := Fanout(listeners[..i + 1], snapshot), Fanout(listeners[..i], snapshot);
    forall k | 0 <= k <= i
      ensures longer[k] == (shorter + [Notification(listeners[i], snapshot)])[k]
    {
      FanoutAt(listeners[..i + 1], snapshot, k);
      if k < i {
        FanoutAt(listeners[..i], snapshot, k);
      }
    }
  }

  /** How many calls in `calls` went to `listener`. */
  function CallsTo(calls: seq<Notification>, listener: ProjectList): nat {
    if calls == [] then 0
    else (if calls[0].listener == listener then 1 else 0) + CallsTo(calls[1..], listener)
  }

  /**
   * Registrations are not de-duplicated: in one round a list is called once per time it was
   * registered, so a list registered twice is called twice.
   */
  lemma {:induction false} CallsPerRegistration(listeners: seq<ProjectList>, snapshot: seq<Project>, l: ProjectList)
    ensures CallsTo(Fanout(listeners, snapshot), l) == multiset(listeners)[l]
  {
    if listeners != [] {
      CallsPerRegistration(listeners[1..], snapshot, l);
      assert listeners == [listeners[0]] + listeners[1..];
      assert multiset(listeners) == multiset{listeners[0]} + multiset(listeners[1..]);
      var calls := Fanout(listeners, snapshot);
      assert calls[1..] == Fanout(listeners[1..], snapshot);
    }
  }

  /** The text of one list item per project, in order. */
  function Titles(projects: seq<Project>): (titles: seq<string>)
    ensures |titles| == |projects|
  {
    if projects == [] then [] else [projects[0].title] + Titles(projects[1..])
  }

  /** Item `k` of the rendered list is the title of project `k`. */
  lemma {:induction false} TitlesAt(projects: seq<Project>, k: nat)
    requires k < |projects|
    ensures Titles(projects)[k] == projects[k].title
  {
    if k > 0 {
      TitlesAt(projects[1..], k - 1);
    }
  }

  lemma {:induction false} TitlesSnoc(projects: seq<Project>, i: nat)
    requires i < |projects|
    ensures Titles(projects[..i + 1]) == Titles(projects[..i]) + [projects[i].title]
  {
    if i > 0 {
      assert projects[..i + 1][1..] == projects[1..][..i];
      assert projects[..i][1..] == projects[1..][..i - 1];
      TitlesSnoc(projects[1..], i - 1);
    }
  }

  /** `State<Project>` together with `ProjectState`: the listener registry and the project list. */
  class ProjectState {
    var listeners: seq<ProjectList>
    var projects: seq<Project>
    /** Every listener call made so far, in order. */
    ghost var notifications: seq<Notification>

    /**
     * The store only ever holds projects made by `addProject`: all of them Active (nothing in the
     * source changes a status) and all with the same id.
     */
    ghost predicate Valid()
      reads this
    {
      forall p :: p in projects ==> p.status == Active && p.id == PROJECT_ID
    }

    constructor()
      ensures Valid()
      ensures listeners == [] && projects == [] && notifications == []
    {
      listeners := [];
      projects := [];
      notifications := [];
    }

    /**
     * `getInstance`: returns the cached instance if there is one and a new store otherwise. The
     * parameter is the static field `instance`, which nothing ever assigns.
     */
    static method GetInstance(instance: ProjectState?) returns (s: ProjectState)
      ensures instance != null ==> s == instance
      ensures instance == null ==> fresh(s) && s.Valid()
      ensures instance == null ==> s.listeners == [] && s.projects == [] && s.notifications == []
    {
      if instance == null {
        s := new ProjectState();
      } else {
        s := instance;
      }
    }

    /** `addListener`: appends to the registry, with no check for duplicates. */
    method AddListener(listener: ProjectList)
      modifies this
      ensures listeners == old(listeners) + [listener]
      ensures projects == old(projects) && notifications == old(notifications)
    {
      listeners := listeners + [listener];
    }

    /**
     * `addProject`: appends a new Active project, then calls every registered listener, in
     * registration order, with a copy of the whole new project list.
     */
    method AddProject(title: string, description: string, people: PeopleCount)
      requires Valid()
      modifies this, listeners
      ensures Valid()
      ensures projects == old(projects) + [NewProject(title, description, people, Active)]
      ensures listeners == old(listeners)
      ensures notifications == old(notifications) + Fanout(listeners, projects)
      ensures forall l :: l in listeners ==> l.Shows(projects)
    {
      projects := projects + [NewProject(title, description, people, Active)];
      NotifyListeners(projects);
    }

    /** The notification loop of `addProject`: each registered listener gets `snapshot`. */
    method NotifyListeners(snapshot: seq<Project>)
      modifies this`notifications, listeners
      ensures notifications == old(notifications) + Fanout(listeners, snapshot)
      ensures forall l :: l in listeners ==> l.Shows(snapshot)
    {
      ghost var before := notifications;
      for i := 0 to |listeners|
        invariant notifications == before + Fanout(listeners[..i], snapshot)
        invariant forall j :: 0 <= j < i ==> listeners[j].Shows(snapshot)
      {
        var listener := listeners[i];
        listener.Notify(snapshot);
        FanoutSnoc(listeners, i, snapshot);
        notifications := notifications + [Notification(listener, snapshot)];
      }
      assert listeners[..|listeners|] == listeners;
    }
  }

  /**
   * What the store invariant buys the lists: a list that shows a valid store's projects lists
   * every project's title when its type is 'active', and nothing when its type is 'finished'.
   */
  lemma ValidStoreLists(state: ProjectState, list: ProjectList)
    requires state.Valid() && list.Shows(state.projects)
    ensures list.kind == "active" ==>
      list.assignedProjects == state.projects && list.items == Titles(state.projects)
    ensures list.kind == "finished" ==> list.assignedProjects == [] && list.items == []
  {
    ActiveListGetsAllActive(state.projects);
    FinishedListAlwaysEmpty(state.projects);
  }

  /** A `ProjectList` widget: the projects it was last given, and the titles its list shows. */
  class ProjectList {
    const kind: ListKind
    var assignedProjects: seq<Project>
    /** The text of each `li` element in the list, in document order. */
    var items: seq<string>

    /** The list reflects `snapshot`: it holds the matching projects and shows their titles. */
    ghost predicate Shows(snapshot: seq<Project>): (ok: bool)
      reads this
      ensures ok ==> |items| == |assignedProjects| <= |snapshot|
    {
      assignedProjects == Relevant(snapshot, kind) && items == Titles(assignedProjects)
    }

    /** The constructor: an empty list, subscribed to the store (`configure`). */
    constructor(kind: ListKind, state: ProjectState)
      modifies state
      ensures this.kind == kind && assignedProjects == [] && items == []
      ensures state.listeners == old(state.listeners) + [this]
      ensures state.projects == old(state.projects)
      ensures state.notifications == old(state.notifications)
    {
      this.kind := kind;
      assignedProjects := [];
      items := [];
      new;
      state.AddListener(this);
    }

    /** The listener `configure` registers: keep the matching projects, then re-render. */
    method Notify(projects: seq<Project>)
      modifies this
      ensures Shows(projects)
    {
      assignedProjects := Relevant(projects, kind);
      RenderProjects();
    }

    /** `renderProjects`: empties the list, then appends one item per assigned project. */
    method RenderProjects()
      modifies this`items
      ensures items == Titles(assignedProjects)
    {
      items := [];
      for i := 0 to |assignedProjects|
        invariant items == Titles(assignedProjects[..i])
      {
        TitlesSnoc(assignedProjects, i);
        items := items + [assignedProjects[i].title];
      }
      assert assignedProjects[..|assignedProjects|] == assignedProjects;
    }
  }

  /**
   * `validateUserInput`, over the three field values: the title is required and 3 to 20
   * characters long, the description has the default checks with a minimum of 5, and the people
   * text gets the number check with `min: 1`.
   */
  function ValidateUserInput(title: string, description: string, people: string): (ok: bool)
    ensures ok <==>
      && 3 <= JsLength(title) <= 20
      && 5 <= JsLength(description) <= 1000
      && ParseIntIsNumber(people) && 1 <= JsLength(people) <= 1000
  {
    && ValidateInputString(StringInput(title, Some(true), Some(3), Some(20)))
    && ValidateInputString(StringInput(description, None, Some(5), None))
    && ValidateInputNumber(NumberInput(people, None, Some(1), None))
  }

  /**
   * For text in the Basic Multilingual Plane the form counts characters: with a people text of
   * "3", a title and description pass exactly when the title has 3 to 20 characters and the
   * description 5 to 1000 ("ab" fails as a title, "abc" passes, and so on).
   */
  lemma FormBoundaries(title: string, description: string)
    requires IsBmp(title) && IsBmp(description)
    ensures ValidateUserInput(title, description, "3") <==>
      3 <= |title| <= 20 && 5 <= |description| <= 1000
  {
    JsLengthOfBmp(title);
    JsLengthOfBmp(description);
    LeadingDigitParses("3");
  }

  /**
   * Outside the Basic Multilingual Plane the form counts UTF-16 code units: a title made only of
   * such characters (emoji, say) passes with 2 to 10 of them, not 3 to 20.
   */
  lemma FormCountsCodeUnits(title: string)
    requires forall i :: 0 <= i < |title| ==> (title[i] as int) >= 0x1_0000
    ensures ValidateUserInput(title, "abcde", "3") <==> 2 <= |title| <= 10
  {
    JsLengthOfAstral(title);
    JsLengthOfBmp("abcde");
    LeadingDigitParses("3");
  }

  /** The submission of the page scenario passes validation. */
  lemma WebsiteFormIsValid()
    ensures ValidateUserInput("Website", "Build site", "3")
  {
    FormBoundaries("Website", "Build site");
  }

  /** The people field: empty and non-numeric texts fail. */
  lemma FormPeopleField()
    ensures !ValidateUserInput("abc", "abcde", "")
    ensures !ValidateUserInput("abc", "abcde", "abc")
  {
    ParseIntRejectsExamples();
  }

  /** `ProjectInput`: the form's three input fields, and the store it submits to. */
  class ProjectInput {
    const state: ProjectState
    var title: string
    var description: string
    var people: string

    constructor(state: ProjectState)
      ensures this.state == state && title == "" && description == "" && people == ""
    {
      this.state := state;
      title, description, people := "", "", "";
    }

    /**
     * `submitHandler`: if the fields fail validation nothing changes; otherwise exactly one
     * project is added with the current title and description, and the fields are cleared.
     */
    method SubmitHandler()
      requires state.Valid()
      modifies this, state, state.listeners
      ensures state.Valid()
      ensures state.listeners == old(state.listeners)
      ensures !ValidateUserInput(old(title), old(description), old(people)) ==>
        && title == old(title) && description == old(description) && people == old(people)
        && state.projects == old(state.projects)
        && state.notifications == old(state.notifications)
        && unchanged(old(state.listeners))
      ensures ValidateUserInput(old(title), old(description), old(people)) ==>
        && state.projects == old(state.projects)
             + [NewProject(old(title), old(description), UnaryPlus(old(people)), Active)]
        && state.notifications == old(state.notifications) + Fanout(state.listeners, state.projects)
        && (forall l :: l in state.listeners ==> l.Shows(state.projects))
        && title == "" && description == "" && people == ""
    {
      if !ValidateUserInput(title, description, people) {
        return;
      }
      state.AddProject(title, description, UnaryPlus(people));
      ClearInputs();
    }

    /** `clearInputs`: empties the three fields. */
    method ClearInputs()
      modifies this`title, this`description, this`people
      ensures title == "" && description == "" && people == ""
    {
      title, description, people := "", "", "";
    }
  }

  /**
   * Two calls of `getInstance` with the static field unassigned, as it always is, give two
   * different stores.
   */
  method GetInstanceTwice() returns (first: ProjectState, second: ProjectState)
    ensures first != second
  {
    first := ProjectState.GetInstance(null);
    second := ProjectState.GetInstance(null);
  }

  /**
   * The page bootstrap (the store, the form, an 'active' and a 'finished' list) followed by one
   * submission of the given field values. A valid submission ("Website" / "Build site" / "3", by
   * `WebsiteFormIsValid`) leaves exactly that project in the store, the 'active' list showing its
   * title and the 'finished' list empty; an invalid one leaves everything empty.
   */
  method SubmitScenario(title: string, description: string, people: string)
    returns (stored: seq<Project>, activeItems: seq<string>, finishedItems: seq<string>)
    ensures ValidateUserInput(title, description, people) ==>
      && stored == [NewProject(title, description, UnaryPlus(people), Active)]
      && activeItems == [title] && finishedItems == []
    ensures !ValidateUserInput(title, description, people) ==>
      stored == [] && activeItems == [] && finishedItems == []
  {
    var state := ProjectState.GetInstance(null);
    var input := new ProjectInput(state);
    var active := new ProjectList("active", state);
    var finished := new ProjectList("finished", state);
    assert state.listeners == [active, finished];
    input.title, input.description, input.people := title, description, people;
    input.SubmitHandler();
    stored := state.projects;
    if ValidateUserInput(title, description, people) {
      assert active in state.listeners && finished in state.listeners;
      ValidStoreLists(state, active);
      ValidStoreLists(state, finished);
    }
    activeItems := active.items;
    finishedItems := finished.items;
  }
}
