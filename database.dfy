/** The project and sales store (src/db/database.ts): the default commission tier table and the
    store operations, over an in-memory copy of the two tables. Clock readings (the month name
    used as a default project name and the ISO timestamp) are parameters. */
module Database {
  import opened Wrappers
  import opened SalesTypes

  /** `DEFAULT_COMMISSION_LEVELS`: eight volume tiers with their additional percentage. */
  const DefaultCommissionLevels: seq<CommissionLevel> := [
    CommissionLevel(1, 162500.0, 243749.0, 1.0),
    CommissionLevel(2, 243750.0, 324999.0, 2.0),
    CommissionLevel(3, 325000.0, 406249.0, 3.0),
    CommissionLevel(4, 406250.0, 487499.0, 3.5),
    CommissionLevel(5, 487500.0, 584999.0, 4.0),
    CommissionLevel(6, 585000.0, 682499.0, 5.0),
    CommissionLevel(7, 682500.0, 893749.0, 5.5),
    CommissionLevel(8, 893750.0, 999999999.0, 6.0)
  ]

  /** The default table: levels 1 to 8 in order, each tier non-empty, each tier starting one
      dollar after the previous one ends, from 162500 to 999999999, and the additional
      percentage strictly increasing along the table. */
  lemma DefaultLevelsShape()
    ensures |DefaultCommissionLevels| == 8
    ensures forall i :: 0 <= i < 8 ==> DefaultCommissionLevels[i].level == i + 1
    ensures forall i :: 0 <= i < 8 ==> DefaultCommissionLevels[i].minAmount <= DefaultCommissionLevels[i].maxAmount
    ensures forall i :: 0 <= i < 7 ==>
              DefaultCommissionLevels[i + 1].minAmount == DefaultCommissionLevels[i].maxAmount + 1.0
    ensures forall i, j :: 0 <= i < j < 8 ==>
              DefaultCommissionLevels[i].additionalCommission < DefaultCommissionLevels[j].additionalCommission
    ensures DefaultCommissionLevels[0].minAmount == 162500.0
    ensures DefaultCommissionLevels[7].maxAmount == 999999999.0
  {
  }

  /** A stored project; `id` is the key the store assigned. */
  datatype Project = Project(id: int, name: string, createdAt: string, updatedAt: string,
                             commissionLevels: seq<CommissionLevel>)

  /** The two tables, projects in key order, and the next auto-increment key (`++id`, which
      starts at 1 and is not reset when a table is cleared). */
  datatype Tables = Tables(projects: seq<Project>, sales: seq<Sale>, nextId: int)

  const EmptyStore: Tables := Tables([], [], 1)

  /** Keys are positive, below the next key, and increase along the table. */
  predicate WellFormed(t: Tables) {
    && t.nextId >= 1
    && (forall i :: 0 <= i < |t.projects| ==> 1 <= t.projects[i].id < t.nextId)
    && (forall i, j :: 0 <= i < j < |t.projects| ==> t.projects[i].id < t.projects[j].id)
  }

  /** The record every project-creating operation adds, with its own copy of the default tiers. */
  function NewProject(t: Tables, name: string, now: string): Project {
    Project(t.nextId, name, now, now, DefaultCommissionLevels)
  }

  /** `projects.add(p)`: `p` is stored under the next key. */
  function Added(t: Tables, p: Project): Tables {
    Tables(t.projects + [p], t.sales, t.nextId + 1)
  }

  /** `initialize`: add a project named after the current month only when there is none. */
  function AfterInitialize(t: Tables, monthName: string, now: string): Tables {
    if |t.projects| == 0 then Added(t, NewProject(t, monthName, now)) else t
  }

  datatype Fetched = Fetched(tables: Tables, project: Project)

  /** `getCurrentProject`, preceded by the initialization every operation runs first. */
  function CurrentProjectOf(t: Tables, monthName: string, now: string): Fetched {
    var s := AfterInitialize(t, monthName, now);
    if |s.projects| == 0 then
      var p := NewProject(s, monthName, now);
      Fetched(Added(s, p), p)
    else Fetched(s, s.projects[0])
  }

  /** `clearAllData`: no sales and one fresh project named after the current month. */
  function AfterClear(t: Tables, monthName: string, now: string): Tables {
    var s := AfterInitialize(t, monthName, now);
    var cleared := Tables([], [], s.nextId);
    Added(cleared, NewProject(cleared, name := monthName, now := now))
  }

  datatype Created = Created(tables: Tables, id: int)

  /** `createNewProject(name)`: the new key is returned. */
  function AfterCreate(t: Tables, name: string, monthName: string, now: string): Created {
    var s := AfterInitialize(t, monthName, now);
    Created(Added(s, NewProject(s, name, now)), s.nextId)
  }

  /** `projects.get(id)`: the position of the project stored under `id`, if any. */
  function FindIndex(ps: seq<Project>, id: int): (r: Option<nat>)
    ensures r.Some? ==> r.value < |ps| && ps[r.value].id == id
    ensures r.None? <==> forall j :: 0 <= j < |ps| ==> ps[j].id != id
  {
    if |ps| == 0 then None
    else if ps[0].id == id then Some(0)
    else
      var rest := FindIndex(ps[1..], id);
      if rest.Some? then Some(rest.value + 1) else None
  }

  datatype Updated = Updated(tables: Tables, outcome: Result<bool, string>)

  /** `updateCommissionLevels(projectId, levels)`: fails with "Project not found" when no project
      has that key, otherwise replaces that project's tiers and update time and returns true. */
  function AfterUpdateLevels(t: Tables, projectId: int, levels: seq<CommissionLevel>,
                             monthName: string, now: string): Updated {
    var s := AfterInitialize(t, monthName, now);
    match FindIndex(s.projects, projectId)
    case None => Updated(s, Failure("Project not found"))
    case Some(i) =>
      var p := s.projects[i];
      Updated(Tables(s.projects[i := p.(commissionLevels := levels, updatedAt := now)], s.sales, s.nextId),
              Success(true))
  }

  /** Initializing twice is initializing once, and leaves at least one project; on an empty store
      it adds exactly one, with the default tiers. */
  lemma InitializeIdempotent(t: Tables, m1: string, n1: string, m2: string, n2: string)
    ensures AfterInitialize(AfterInitialize(t, m1, n1), m2, n2) == AfterInitialize(t, m1, n1)
    ensures |AfterInitialize(t, m1, n1).projects| >= 1
    ensures |t.projects| == 0 ==>
              && AfterInitialize(t, m1, n1).projects == [NewProject(t, m1, n1)]
              && AfterInitialize(t, m1, n1).projects[0].commissionLevels == DefaultCommissionLevels
    ensures |t.projects| > 0 ==> AfterInitialize(t, m1, n1) == t
  {
  }

  /** On an empty store the current project is a newly added one with the default tiers, the
      only project; otherwise it is the first stored project and nothing is added. */
  lemma CurrentProjectSpec(t: Tables, monthName: string, now: string)
    ensures var f := CurrentProjectOf(t, monthName, now);
            && (|t.projects| == 0 ==>
                  f.tables.projects == [f.project]
                  && f.project == Project(t.nextId, monthName, now, now, DefaultCommissionLevels))
            && (|t.projects| > 0 ==> f.tables == t && f.project == t.projects[0])
  {
  }

  /** After clearing there are no sales and exactly one project, with the default tiers. */
  lemma ClearSpec(t: Tables, monthName: string, now: string)
    ensures var c := AfterClear(t, monthName, now);
            && c.sales == []
            && |c.projects| == 1
            && c.projects[0].name == monthName
            && c.projects[0].commissionLevels == DefaultCommissionLevels
  {
  }

  /** A created project gets the default tiers and a key no other project has; every other
      project and every sale is kept. */
  lemma CreateSpec(t: Tables, name: string, monthName: string, now: string)
    requires WellFormed(t)
    ensures var c := AfterCreate(t, name, monthName, now);
            var s := AfterInitialize(t, monthName, now);
            && c.tables.projects == s.projects + [Project(c.id, name, now, now, DefaultCommissionLevels)]
            && c.tables.sales == t.sales
            && (forall i :: 0 <= i < |s.projects| ==> s.projects[i].id != c.id)
  {
  }

  /** An unknown key fails with "Project not found" and changes nothing beyond initialization. */
  lemma UpdateUnknownFails(t: Tables, projectId: int, levels: seq<CommissionLevel>, monthName: string, now: string)
    ensures var s := AfterInitialize(t, monthName, now);
            var u := AfterUpdateLevels(t, projectId, levels, monthName, now);
            (forall j :: 0 <= j < |s.projects| ==> s.projects[j].id != projectId) <==>
              (u.outcome == Failure("Project not found") && u.tables == s)
  {
  }

  /** A known key: the call succeeds; that project gets the new tiers and update time and keeps
      its key, name and creation time; every other project, the sales and the next key stay. */
  lemma UpdateKnownReplaces(t: Tables, projectId: int, levels: seq<CommissionLevel>, monthName: string,
                            now: string, i: int)
    requires WellFormed(t)
    requires 0 <= i < |AfterInitialize(t, monthName, now).projects|
    requires AfterInitialize(t, monthName, now).projects[i].id == projectId
    ensures var s := AfterInitialize(t, monthName, now);
            var u := AfterUpdateLevels(t, projectId, levels, monthName, now);
            && u.outcome == Success(true)
            && |u.tables.projects| == |s.projects|
            && u.tables.projects[i] == s.projects[i].(commissionLevels := levels, updatedAt := now)
            && (forall j :: 0 <= j < |s.projects| && j != i ==> u.tables.projects[j] == s.projects[j])
            && u.tables.sales == s.sales && u.tables.nextId == s.nextId
  {
    InitializeWellFormed(t, monthName, now);
  }

  lemma InitializeWellFormed(t: Tables, monthName: string, now: string)
    requires WellFormed(t)
    ensures WellFormed(AfterInitialize(t, monthName, now))
  {
  }

  /** Every operation keeps the keys well formed. */
  lemma OperationsWellFormed(t: Tables, name: string, projectId: int, levels: seq<CommissionLevel>,
                             monthName: string, now: string)
    requires WellFormed(t)
    ensures WellFormed(CurrentProjectOf(t, monthName, now).tables)
    ensures WellFormed(AfterClear(t, monthName, now))
    ensures WellFormed(AfterCreate(t, name, monthName, now).tables)
    ensures WellFormed(AfterUpdateLevels(t, projectId, levels, monthName, now).tables)
  {
    InitializeWellFormed(t, monthName, now);
    var s := AfterInitialize(t, monthName, now);
    AddedWellFormed(s, NewProject(s, name, now));
    AddedWellFormed(Tables([], [], s.nextId), NewProject(Tables([], [], s.nextId), monthName, now));
    UpdateWellFormed(s, projectId, levels, monthName, now);
  }

  /** Adding a project under the next key keeps the keys well formed. */
  lemma AddedWellFormed(t: Tables, p: Project)
    requires WellFormed(t) && p.id == t.nextId
    ensures WellFormed(Added(t, p))
  {
  }

  lemma UpdateWellFormed(s: Tables, projectId: int, levels: seq<CommissionLevel>, monthName: string, now: string)
    requires WellFormed(s) && |s.projects| > 0
    ensures WellFormed(AfterUpdateLevels(s, projectId, levels, monthName, now).tables)
  {
    var k := FindIndex(s.projects, projectId);
    if k.Some? {
      var u := AfterUpdateLevels(s, projectId, levels, monthName, now).tables;
      assert forall j :: 0 <= j < |u.projects| ==> u.projects[j].id == s.projects[j].id;
    }
  }

  /** The store as the application holds it: the two tables and the key counter. */
  class SalesDatabase {
    var projects: seq<Project>
    var sales: seq<Sale>
    var nextId: int

    function State(): Tables
      reads this
    {
      Tables(projects, sales, nextId)
    }

    predicate Valid()
      reads this
    {
      WellFormed(State())
    }

    constructor()
      ensures State() == EmptyStore && Valid()
    {
      projects := [];
      sales := [];
      nextId := 1;
    }

    /** `projects.add`: stores a fresh project under the next key and returns the key. */
    method AddProject(name: string, now: string) returns (id: int)
      requires Valid()
      modifies this
      ensures Valid()
      ensures id == old(nextId)
      ensures State() == Added(old(State()), NewProject(old(State()), name, now))
    {
      AddedWellFormed(State(), NewProject(State(), name, now));
      id := nextId;
      projects := projects + [Project(id, name, now, now, DefaultCommissionLevels)];
      nextId := nextId + 1;
    }

    method Initialize(monthName: string, now: string)
      requires Valid()
      modifies this
      ensures Valid()
      ensures State() == AfterInitialize(old(State()), monthName, now)
    {
      var projectCount := |projects|;
      if projectCount == 0 {
        var _ := AddProject(monthName, now);
      }
    }

    method GetCurrentProject(monthName: string, now: string) returns (project: Project)
      requires Valid()
      modifies this
      ensures Valid()
      ensures Fetched(State(), project) == CurrentProjectOf(old(State()), monthName, now)
    {
      Initialize(monthName, now);
      var all := projects;
      if |all| == 0 {
        var id := AddProject(monthName, now);
        project := projects[|projects| - 1];
      } else {
        project := all[0];
      }
    }

    method ClearAllData(monthName: string, now: string) returns (ok: bool)
      requires Valid()
      modifies this
      ensures Valid()
      ensures ok
      ensures State() == AfterClear(old(State()), monthName, now)
    {
      Initialize(monthName, now);
      sales := [];
      projects := [];
      var _ := AddProject(monthName, now);
      ok := true;
    }

    method CreateNewProject(name: string, monthName: string, now: string) returns (id: int)
      requires Valid()
      modifies this
      ensures Valid()
      ensures Created(State(), id) == AfterCreate(old(State()), name, monthName, now)
    {
      Initialize(monthName, now);
      id := AddProject(name, now);
    }

    method UpdateCommissionLevels(projectId: int, levels: seq<CommissionLevel>, monthName: string, now: string)
      returns (outcome: Result<bool, string>)
      requires Valid()
      modifies this
      ensures Valid()
      ensures Updated(State(), outcome) == AfterUpdateLevels(old(State()), projectId, levels, monthName, now)
    {
      Initialize(monthName, now);
      var found := FindIndex(projects, projectId);
      if found.None? {
        outcome := Failure("Project not found");
        return;
      }
      var i := found.value;
      UpdateWellFormed(State(), projectId, levels, monthName, now);
      projects := projects[i := projects[i].(commissionLevels := levels, updatedAt := now)];
      outcome := Success(true);
    }
  }
}
