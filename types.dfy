/** Option and Result, used for absent values and for operations that can fail. */
module Wrappers {
  datatype Option<+T> = None | Some(value: T)

  datatype Result<+T, +E> = Ok(value: T) | Err(error: E)
}

/**
 * The battle data model: closed enumerations for roles and statuses, and records
 * for the documents the shared store holds under `battles/{battleId}` and
 * `activeBattles/{battleCode}`. Every `Record<string, X>` becomes a `map`; a
 * record that an empty object would leave absent in the store is the empty map.
 */
module BattleTypes {
  import opened Wrappers

  type UserId = string
  type BattleId = string
  type MessageKey = string

  datatype UserRole = Host | Contestant | Spectator

  /** The roles `joinBattle` accepts: everything but `host`. */
  type JoinRole = r: UserRole | r != Host witness Contestant

  datatype BattleStatus = Waiting | Active | Completed | Cancelled

  datatype RoundStatus = Waiting | PromptSubmission | Generating | Voting | Completed

  datatype GenerationStatus = Pending | Generating | Completed | Failed

  /** The statuses `updateSubmissionStatus` may write: everything but `pending`. */
  type UpdateStatus = s: GenerationStatus | s != Pending witness GenerationStatus.Generating

  datatype MessageType = Chat | System | Announcement

  datatype PresenceStatus = Online | Offline | Typing

  datatype BattleSettings = BattleSettings(
    numRounds: int,
    promptTimeLimit: int,
    votingTimeLimit: int,
    maxContestants: int,
    spectatorVotingEnabled: bool,
    manualWinnerSelection: bool,
    useCustomTopics: bool,
    customTopics: Option<seq<string>>)

  datatype BattleMetadata = BattleMetadata(
    name: string,
    description: string,
    createdAt: int,
    hostId: UserId,
    battleCode: string,
    status: BattleStatus,
    settings: BattleSettings)

  datatype Participant = Participant(
    displayName: string,
    role: UserRole,
    joinedAt: int,
    status: PresenceStatus,
    lastActive: int,
    score: int)

  /**
   * A submission as the store holds it. The declared type makes `prompt` and
   * `submittedAt` mandatory, but a merge-write of a generation status into a key
   * that holds no submission leaves them absent, so the stored value carries them
   * as options; `Complete` is the declared shape.
   */
  datatype Submission = Submission(
    prompt: Option<string>,
    submittedAt: Option<int>,
    imageUrl: Option<string>,
    generationStatus: GenerationStatus,
    error: Option<string>)
  {
    predicate Complete() {
      prompt.Some? && submittedAt.Some?
    }
  }

  datatype Vote = Vote(votedFor: UserId, votedAt: int)

  datatype RoundResults = RoundResults(
    winner: UserId,
    voteCountByUser: map<UserId, int>,
    announcedAt: int)

  datatype Round = Round(
    roundNumber: nat,
    topic: string,
    startedAt: int,
    endedAt: Option<int>,
    status: RoundStatus,
    promptEndTime: int,
    votingEndTime: int,
    submissions: map<UserId, Submission>,
    votes: map<UserId, Vote>,
    results: Option<RoundResults>)

  datatype Message = Message(
    sender: UserId,
    content: string,
    sentAt: int,
    messageType: MessageType)

  datatype Battle = Battle(
    metadata: BattleMetadata,
    participants: map<UserId, Participant>,
    rounds: map<nat, Round>,
    messages: map<MessageKey, Message>)

  /** The entry of the `activeBattles` index that resolves a battle code. */
  datatype ActiveBattle = ActiveBattle(
    battleId: BattleId,
    name: string,
    hostName: string,
    status: BattleStatus,
    participantCount: int,
    createdAt: int)

  /** The role and status enumerations are closed sets of 3, 4, 5, 4 and 3 values. */
  lemma EnumerationsAreClosed(r: UserRole, b: BattleStatus, s: RoundStatus, g: GenerationStatus, m: MessageType)
    ensures r in {Host, Contestant, Spectator} && |{Host, Contestant, Spectator}| == 3
    ensures b in {BattleStatus.Waiting, Active, BattleStatus.Completed, Cancelled}
    ensures |{BattleStatus.Waiting, Active, BattleStatus.Completed, Cancelled}| == 4
    ensures s in {RoundStatus.Waiting, PromptSubmission, RoundStatus.Generating, Voting, RoundStatus.Completed}
    ensures |{RoundStatus.Waiting, PromptSubmission, RoundStatus.Generating, Voting, RoundStatus.Completed}| == 5
    ensures g in {Pending, GenerationStatus.Generating, GenerationStatus.Completed, Failed}
    ensures |{Pending, GenerationStatus.Generating, GenerationStatus.Completed, Failed}| == 4
    ensures m in {Chat, System, Announcement} && |{Chat, System, Announcement}| == 3
  {
  }
}
