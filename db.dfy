/** The local SQLite database, reduced to a ghost log of the statements the
    stores issue against it. Nothing reads the log back: it exists so that the
    stores' contracts can say which rows were written, and in what order. */
module Db {
  import opened Types

  /** One write statement, with the values it binds. */
  datatype Write =
    | InsertUser(user: User)
    | MarkOnboardingComplete(userId: string)
    | InsertLifeTask(lifeTask: LifeTask)
    | InsertProgressRow(row: MasteryProgress)
    | UpdateLifeTaskMinutes(lifeTaskId: string, totalMinutes: int, phase: Phase)
    | InsertSession(session: PracticeSession)
    | DeleteSession(sessionId: string)
    | UpdateScores(
        lifeTaskId: string, focus: int, discipline: int, creativity: int,
        intuition: int, socialIntelligence: int, currentStreak: int, longestStreak: int)
    | AddXp(lifeTaskId: string, amount: int)
    | UpdateUnlockedKeys(lifeTaskId: string, unlockedKeyIds: seq<string>)
    | InsertMentor(mentor: Mentor)
    | UpdateMentorLevel(mentorId: string, level: RelationshipLevel)
    | UpdateMentorNotes(mentorId: string, notes: string)
    | DeleteMentor(mentorId: string)
    | InsertProject(project: Project)
    | CompleteProject(projectId: string, completedAt: string)
    | DeleteProject(projectId: string)

  /** The database connection every store shares. */
  class Database {
    ghost var log: seq<Write>

    constructor ()
      ensures log == []
    {
      log := [];
    }
  }
}
