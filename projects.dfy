/** The project store (src/stores/useProjectStore.ts): the task's creative
    projects, newest first. `Math.random()` is the parameter `random`, a real
    in [0, 1); the current ISO timestamp is the parameter `now`. */
module Projects {
  import opened Types
  import opened Seqs
  import opened Db

  /** `100 + Math.floor(Math.random() * 150)`: a whole reward from 100 to 249. */
  function XpReward(random: real): (xp: int)
    requires 0.0 <= random < 1.0
    ensures 100 <= xp <= 249
    ensures random < 1.0 / 150.0 ==> xp == 100
  {
    100 + (random * 150.0).Floor
  }

  /** Every reward from 100 to 249 is drawn by some random value. */
  lemma XpRewardReachesAll(xp: int)
    requires 100 <= xp <= 249
    ensures XpReward((xp - 100) as real / 150.0) == xp
  {
    var random := (xp - 100) as real / 150.0;
    assert random * 150.0 == (xp - 100) as real;
  }

  /** A project's completion flag and completion time agree. */
  predicate CompletionConsistent(p: Project) {
    p.isCompleted <==> p.completedAt.Some?
  }

  /** `projects.map((p) => p.id === id ? { ...p, isCompleted: true, completedAt: now } : p)` */
  function Completed(projects: seq<Project>, id: string, now: string): (r: seq<Project>)
    ensures |r| == |projects|
    ensures forall i :: 0 <= i < |r| ==>
      r[i].(isCompleted := projects[i].isCompleted, completedAt := projects[i].completedAt) == projects[i]
    ensures forall i :: 0 <= i < |r| && projects[i].id == id ==> r[i].isCompleted && r[i].completedAt == Some(now)
    ensures forall i :: 0 <= i < |r| && projects[i].id != id ==> r[i] == projects[i]
  {
    seq(|projects|, i requires 0 <= i < |projects| =>
      if projects[i].id == id then projects[i].(isCompleted := true, completedAt := Some(now)) else projects[i])
  }

  /** `projects.filter((p) => p.id !== id)` */
  function WithoutProject(projects: seq<Project>, id: string): (r: seq<Project>)
    ensures |r| <= |projects|
    ensures forall p :: p in r <==> p in projects && p.id != id
    ensures SubsequenceOf(r, projects)
    ensures forall x :: multiset(r)[x] == if x.id != id then multiset(projects)[x] else 0
  {
    FilterIsSubsequence(projects, (p: Project) => p.id != id);
    FilterMultiplicity(projects, (p: Project) => p.id != id);
    Filter(projects, (p: Project) => p.id != id)
  }

  /** Completing keeps flags and times in agreement. */
  lemma CompletedKeepsConsistent(projects: seq<Project>, id: string, now: string)
    requires forall i :: 0 <= i < |projects| ==> CompletionConsistent(projects[i])
    ensures var r := Completed(projects, id, now); forall i :: 0 <= i < |r| ==> CompletionConsistent(r[i])
  {
  }

  /** Completing a project again re-stamps it: the later time wins. */
  lemma CompleteTwiceRestamps(projects: seq<Project>, id: string, first: string, second: string)
    ensures Completed(Completed(projects, id, first), id, second) == Completed(projects, id, second)
  {
  }

  /** Deleting an id no project carries leaves the list as it is. */
  lemma DeleteAbsentIsNoop(projects: seq<Project>, id: string)
    requires forall i :: 0 <= i < |projects| ==> projects[i].id != id
    ensures WithoutProject(projects, id) == projects
  {
    FilterKeepsAll(projects, (p: Project) => p.id != id);
  }

  class ProjectStore {
    var projects: seq<Project>

    /** The store starts empty. */
    constructor ()
      ensures projects == []
    {
      projects := [];
    }

    /** Every project's completion flag and time agree. */
    ghost predicate Valid()
      reads this
    {
      forall i :: 0 <= i < |projects| ==> CompletionConsistent(projects[i])
    }

    /** `addProject`: records an open project with a random reward and puts it first. */
    method AddProject(db: Database, lifeTaskId: string, title: string, description: string,
                      deadline: Option<string>, id: string, random: real, createdAt: string)
      returns (project: Project)
      requires 0.0 <= random < 1.0
      modifies this, db
      ensures project == Project(id, lifeTaskId, title, description, deadline, false, None, XpReward(random), createdAt)
      ensures projects == [project] + old(projects)
      ensures db.log == old(db.log) + [InsertProject(project)]
      ensures old(Valid()) ==> Valid()
    {
      project := Project(id, lifeTaskId, title, description, deadline, false, None, 100 + (random * 150.0).Floor, createdAt);
      db.log := db.log + [InsertProject(project)];
      projects := [project] + projects;
    }

    /** `completeProject`: marks every project with that id completed at `now`,
        whether or not it already was. */
    method CompleteProject(db: Database, id: string, now: string)
      modifies this, db
      ensures projects == Completed(old(projects), id, now)
      ensures db.log == old(db.log) + [Write.CompleteProject(id, now)]
      ensures old(Valid()) ==> Valid()
    {
      db.log := db.log + [Write.CompleteProject(id, now)];
      projects := Completed(projects, id, now);
    }

    /** `deleteProject`: removes every project with that id. */
    method DeleteProject(db: Database, id: string)
      modifies this, db
      ensures projects == WithoutProject(old(projects), id)
      ensures db.log == old(db.log) + [Write.DeleteProject(id)]
      ensures old(Valid()) ==> Valid()
    {
      db.log := db.log + [Write.DeleteProject(id)];
      projects := WithoutProject(projects, id);
    }
  }
}
