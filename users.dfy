/** The user store (src/stores/useUserStore.ts): the single local user, their
    life's task, and the phase the task's accumulated minutes put it in. */
module Users {
  import opened Types
  import opened Db
  import opened MasteryKeys
  import Progress

  /** `getPhase`: master from 5000 hours on, creative from 500 hours on,
      apprentice below. */
  function GetPhase(totalMinutes: int): (p: Phase)
    ensures p == Master <==> totalMinutes >= MASTER_THRESHOLD
    ensures p == Creative <==> CREATIVE_THRESHOLD <= totalMinutes < MASTER_THRESHOLD
    ensures p == Apprentice <==> totalMinutes < CREATIVE_THRESHOLD
  {
    if totalMinutes >= MASTER_THRESHOLD then Master
    else if totalMinutes >= CREATIVE_THRESHOLD then Creative
    else Apprentice
  }

  /** The position of a phase in the progression. */
  function PhaseRank(p: Phase): nat {
    match p
    case Apprentice => 0
    case Creative => 1
    case Master => 2
  }

  /** More minutes never put a task in an earlier phase. */
  lemma GetPhaseMonotone(m1: int, m2: int)
    requires m1 <= m2
    ensures PhaseRank(GetPhase(m1)) <= PhaseRank(GetPhase(m2))
  {
  }

  /** A new task (0 minutes) is an apprentice; the phase changes exactly at
      the two thresholds. */
  lemma PhaseBoundaries()
    ensures GetPhase(0) == Apprentice
    ensures GetPhase(CREATIVE_THRESHOLD - 1) == Apprentice && GetPhase(CREATIVE_THRESHOLD) == Creative
    ensures GetPhase(MASTER_THRESHOLD - 1) == Creative && GetPhase(MASTER_THRESHOLD) == Master
  {
  }

  /** A task whose stored phase is the one its minutes give. */
  predicate PhaseConsistent(t: LifeTask) {
    t.phase == GetPhase(t.totalMinutes)
  }

  /** The task after `addMinutes(minutes)`. */
  function WithMinutes(t: LifeTask, minutes: int): (u: LifeTask)
    ensures PhaseConsistent(u)
    ensures u.totalMinutes == t.totalMinutes + minutes
    ensures u.(totalMinutes := t.totalMinutes, phase := t.phase) == t
  {
    var newTotal := t.totalMinutes + minutes;
    t.(totalMinutes := newTotal, phase := GetPhase(newTotal))
  }

  /** Adding minutes in two steps reaches the same task as adding them at once. */
  lemma WithMinutesAdditive(t: LifeTask, a: int, b: int)
    ensures WithMinutes(WithMinutes(t, a), b) == WithMinutes(t, a + b)
  {
  }

  class UserStore {
    var user: Option<User>
    var lifeTask: Option<LifeTask>

    /** The store starts with no user and no task. */
    constructor ()
      ensures user == None && lifeTask == None
    {
      user := None;
      lifeTask := None;
    }

    /** The loaded task's phase agrees with its minutes. */
    ghost predicate Valid()
      reads this
    {
      lifeTask.Some? ==> PhaseConsistent(lifeTask.value)
    }

    /** `createUser`: inserts a user who has not finished onboarding and makes
        them the current user. */
    method CreateUser(db: Database, name: string, id: string, createdAt: string) returns (u: User)
      modifies this, db
      ensures u == User(id, name, createdAt, false)
      ensures user == Some(u) && lifeTask == old(lifeTask)
      ensures db.log == old(db.log) + [InsertUser(u)]
      ensures old(Valid()) ==> Valid()
    {
      u := User(id, name, createdAt, false);
      db.log := db.log + [InsertUser(u)];
      user := Some(u);
    }

    /** `setLifeTask`: without a user it fails (`None`, the thrown "No user
        found") and nothing changes; otherwise it inserts an apprentice task
        with no minutes for that user and its all-default progress row. */
    method SetLifeTask(db: Database, domain: Domain, customName: string, id: string, startedAt: string)
      returns (r: Option<LifeTask>)
      modifies this, db
      ensures old(user).None? ==> r.None? && lifeTask == old(lifeTask) && db.log == old(db.log)
      ensures old(user).Some? ==>
        && r == Some(LifeTask(id, old(user).value.id, domain, customName, 0, Apprentice, startedAt))
        && lifeTask == r
        && db.log == old(db.log) + [InsertLifeTask(r.value), InsertProgressRow(Progress.ZeroProgress(id))]
      ensures user == old(user)
      ensures old(Valid()) ==> Valid()
    {
      if user.None? {
        return None;
      }
      var t := LifeTask(id, user.value.id, domain, customName, 0, Apprentice, startedAt);
      db.log := db.log + [InsertLifeTask(t), InsertProgressRow(Progress.ZeroProgress(t.id))];
      lifeTask := Some(t);
      r := lifeTask;
    }

    /** `completeOnboarding`: marks the current user as onboarded; does
        nothing without a user. */
    method CompleteOnboarding(db: Database)
      modifies this, db
      ensures old(user).None? ==> user == None && db.log == old(db.log)
      ensures old(user).Some? ==>
        && user == Some(old(user).value.(onboardingComplete := true))
        && db.log == old(db.log) + [MarkOnboardingComplete(old(user).value.id)]
      ensures lifeTask == old(lifeTask)
      ensures old(Valid()) ==> Valid()
    {
      if user.None? {
        return;
      }
      db.log := db.log + [MarkOnboardingComplete(user.value.id)];
      user := Some(user.value.(onboardingComplete := true));
    }

    /** `addMinutes`: adds to the task's total and moves it to the phase the
        new total gives; does nothing without a task. */
    method AddMinutes(db: Database, minutes: int)
      modifies this, db
      ensures old(lifeTask).None? ==> lifeTask == None && db.log == old(db.log)
      ensures old(lifeTask).Some? ==>
        var t := WithMinutes(old(lifeTask).value, minutes);
        && lifeTask == Some(t)
        && db.log == old(db.log) + [UpdateLifeTaskMinutes(t.id, t.totalMinutes, t.phase)]
      ensures user == old(user)
      ensures old(Valid()) ==> Valid()
    {
      if lifeTask.None? {
        return;
      }
      var newTotal := lifeTask.value.totalMinutes + minutes;
      var newPhase := GetPhase(newTotal);
      db.log := db.log + [UpdateLifeTaskMinutes(lifeTask.value.id, newTotal, newPhase)];
      lifeTask := Some(lifeTask.value.(totalMinutes := newTotal, phase := newPhase));
    }
  }
}
