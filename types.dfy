/** The entities of the mastery tracker (src/types/index.ts).
    Calendar dates are day numbers (days since some fixed epoch); ISO timestamps
    that the core only stores and never inspects stay opaque strings. */
module Types {

  datatype Option<+T> = None | Some(value: T)

  /** The three lifecycle phases of a life's task, in the order they are reached. */
  datatype Phase = Apprentice | Creative | Master

  datatype SessionType = Deliberate | Observational | Passive

  datatype Domain =
    | Music | Coding | Writing | Chess | MartialArts
    | Art | Science | Business | Language | Other

  /** A session's quality rating, 1 to 5. */
  type Quality = q: int | 1 <= q <= 5 witness 1

  /** A mentor's relationship level, 1 to 5. */
  type RelationshipLevel = l: int | 1 <= l <= 5 witness 1

  /** A calendar day, counted in days. */
  type Day = int

  datatype User = User(id: string, name: string, createdAt: string, onboardingComplete: bool)

  datatype LifeTask = LifeTask(
    id: string,
    userId: string,
    domain: Domain,
    customName: string,
    totalMinutes: int,
    phase: Phase,
    startedAt: string)

  datatype PracticeSession = PracticeSession(
    id: string,
    lifeTaskId: string,
    date: Day,
    durationMinutes: int,
    quality: Quality,
    sessionType: SessionType,
    notes: string,
    createdAt: string)

  datatype Project = Project(
    id: string,
    lifeTaskId: string,
    title: string,
    description: string,
    deadline: Option<string>,
    isCompleted: bool,
    completedAt: Option<string>,
    xpReward: int,
    createdAt: string)

  datatype Mentor = Mentor(
    id: string,
    lifeTaskId: string,
    name: string,
    domain: string,
    isHistorical: bool,
    notes: string,
    relationshipLevel: RelationshipLevel,
    createdAt: string)

  /** A mastery key: its id and the total minutes that unlock it. */
  datatype MasteryKey = MasteryKey(id: string, unlockedAtMinutes: int)

  datatype MasteryProgress = MasteryProgress(
    lifeTaskId: string,
    focus: int,
    discipline: int,
    creativity: int,
    intuition: int,
    socialIntelligence: int,
    currentStreak: int,
    longestStreak: int,
    totalXp: int,
    unlockedKeyIds: seq<string>)
}
