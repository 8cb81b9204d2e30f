/**
 * The battle store (src/services/firebase.ts) with the realtime database taken
 * as two in-memory maps: `battles/{battleId}` and the code index
 * `activeBattles/{battleCode}`. Each operation is one point write, or two; `set`
 * replaces the value at its path, `update` merges fields into it and `push`
 * writes under a key no sibling uses, which here is a parameter.
 */
module BattleStore {
  import opened Wrappers
  import opened BattleTypes
  import RoundProjection
  import opened Text

  // ---------------------------------------------------------------------------
  // Battle codes
  // ---------------------------------------------------------------------------

  const CodeAlphabet: string := "ABCDEFGHIJKLMNOPQRSTUVWXYZ0123456789"
  const CodeLength: nat := 6

  /** A draw of `Math.random()`: a number in [0, 1). */
  predicate IsRandomDraw(r: real) {
    0.0 <= r < 1.0
  }

  predicate ValidDraws(draws: seq<real>) {
    |draws| == CodeLength && forall i :: 0 <= i < |draws| ==> IsRandomDraw(draws[i])
  }

  /** `Math.floor(Math.random() * chars.length)`: always a position of the alphabet. */
  function DrawIndex(r: real): (i: nat)
    requires IsRandomDraw(r)
    ensures i < |CodeAlphabet|
  {
    (r * 36.0).Floor
  }

  /** The shape of every code `generateBattleCode` can return. */
  predicate IsBattleCode(code: string) {
    |code| == CodeLength && forall i :: 0 <= i < |code| ==> code[i] in CodeAlphabet
  }

  /** The code the six draws select: six characters, each from `A-Z0-9`. */
  function CodeFromDraws(draws: seq<real>): (code: string)
    requires ValidDraws(draws)
    ensures IsBattleCode(code)
  {
    seq(CodeLength, i requires 0 <= i < CodeLength => CodeAlphabet[DrawIndex(draws[i])])
  }

  /** Every character of the alphabet is an upper-case ASCII letter or a decimal digit. */
  lemma CodeAlphabetIsAlphanumeric()
    ensures forall k :: 0 <= k < |CodeAlphabet| ==> ('A' <= CodeAlphabet[k] <= 'Z') || ('0' <= CodeAlphabet[k] <= '9')
  {
  }

  /** `generateBattleCode`: appends one drawn character per iteration, six times. */
  method GenerateBattleCode(draws: seq<real>) returns (code: string)
    requires ValidDraws(draws)
    ensures code == CodeFromDraws(draws)
    ensures IsBattleCode(code)
  {
    code := "";
    for i := 0 to CodeLength
      invariant |code| == i
      invariant forall k :: 0 <= k < i ==> code[k] == CodeAlphabet[DrawIndex(draws[k])]
    {
      code := code + [CodeAlphabet[DrawIndex(draws[i])]];
    }
  }

  // ---------------------------------------------------------------------------
  // The records the operations write
  // ---------------------------------------------------------------------------

  /** The fields of the battle form that `createBattle` spreads into the metadata. */
  datatype BattleDraft = BattleDraft(name: string, description: string, settings: BattleSettings)

  const PromptPhaseMillis: int := 60000
  const RoundMillis: int := 120000

  function NewParticipant(displayName: string, role: UserRole, now: int): (p: Participant)
    ensures p.displayName == displayName && p.role == role && p.score == 0
    ensures p.status == Online && p.joinedAt == now && p.lastActive == now
  {
    Participant(displayName, role, now, Online, now, 0)
  }

  /**
   * The battle `createBattle` writes: waiting, hosted by `hostId`, with the
   * `settings` argument (it overrides the draft's), its host as the only
   * participant, and no rounds or messages. The host's display name is the
   * battle's name.
   */
  function InitialBattle(hostId: UserId, draft: BattleDraft, settings: BattleSettings, code: string, now: int): (b: Battle)
    ensures b.metadata.hostId == hostId && b.metadata.status == BattleStatus.Waiting
    ensures b.metadata.name == draft.name && b.metadata.description == draft.description
    ensures b.metadata.settings == settings && b.metadata.battleCode == code && b.metadata.createdAt == now
    ensures b.participants.Keys == {hostId}
    ensures b.participants[hostId].role == Host && b.participants[hostId].score == 0
    ensures b.participants[hostId].displayName == draft.name
    ensures b.rounds == map[] && b.messages == map[]
  {
    Battle(
      BattleMetadata(draft.name, draft.description, now, hostId, code, BattleStatus.Waiting, settings),
      map[hostId := NewParticipant(draft.name, Host, now)],
      map[],
      map[])
  }

  /** The round `startRound` writes: open for prompts, with deadlines one and two minutes out. */
  function NewRound(roundNumber: nat, topic: string, now: int): (r: Round)
    ensures r.roundNumber == roundNumber && r.topic == topic && r.startedAt == now
    ensures r.status == PromptSubmission
    ensures r.promptEndTime == now + PromptPhaseMillis && r.votingEndTime == now + RoundMillis
    ensures r.promptEndTime < r.votingEndTime
    ensures r.submissions == map[] && r.votes == map[]
    ensures r.endedAt.None? && r.results.None?
  {
    Round(roundNumber, topic, now, None, PromptSubmission, now + PromptPhaseMillis, now + RoundMillis, map[], map[], None)
  }

  /** The submission `submitPrompt` writes. */
  function NewSubmission(prompt: string, now: int): (s: Submission)
    ensures s.Complete() && s.prompt == Some(prompt) && s.generationStatus == Pending
    ensures s.imageUrl.None? && s.error.None?
  {
    Submission(Some(prompt), Some(now), None, Pending, None)
  }

  /**
   * The value left at a submission path after `updateSubmissionStatus` merges
   * into it: the new status, the image URL and the error only when given and
   * non-empty, every other field as it was. Merging into an absent submission
   * creates one without a prompt.
   */
  function MergeSubmission(existing: Option<Submission>, status: UpdateStatus, imageUrl: Option<string>, error: Option<string>): (s: Submission)
    ensures s.generationStatus == status
    ensures existing.Some? ==> s.prompt == existing.value.prompt && s.submittedAt == existing.value.submittedAt
    ensures existing.None? ==> !s.Complete()
    ensures existing.Some? && existing.value.Complete() ==> s.Complete()
    ensures Truthy(imageUrl) ==> s.imageUrl == imageUrl
    ensures !Truthy(imageUrl) ==> s.imageUrl == (if existing.Some? then existing.value.imageUrl else None)
    ensures Truthy(error) ==> s.error == error
    ensures !Truthy(error) ==> s.error == (if existing.Some? then existing.value.error else None)
  {
    var base := match existing
      case Some(e) => e
      case None => Submission(None, None, None, status, None);
    base.(generationStatus := status,
          imageUrl := if Truthy(imageUrl) then imageUrl else base.imageUrl,
          error := if Truthy(error) then error else base.error)
  }

  // ---------------------------------------------------------------------------
  // Point writes on a battle value
  // ---------------------------------------------------------------------------

  function PutParticipant(b: Battle, uid: UserId, p: Participant): (r: Battle)
    ensures r.participants == b.participants[uid := p]
    ensures r.metadata == b.metadata && r.rounds == b.rounds && r.messages == b.messages
  {
    b.(participants := b.participants[uid := p])
  }

  function PutRound(b: Battle, n: nat, round: Round): (r: Battle)
    ensures r.rounds == b.rounds[n := round]
    ensures r.metadata == b.metadata && r.participants == b.participants && r.messages == b.messages
  {
    b.(rounds := b.rounds[n := round])
  }

  /** Replaces one submission of one round; every other part of the battle is kept. */
  function PutSubmission(b: Battle, n: nat, uid: UserId, s: Submission): (r: Battle)
    requires n in b.rounds
    ensures r.rounds.Keys == b.rounds.Keys
    ensures forall k :: k in b.rounds && k != n ==> r.rounds[k] == b.rounds[k]
    ensures r.rounds[n].submissions == b.rounds[n].submissions[uid := s]
    ensures r.rounds[n] == b.rounds[n].(submissions := r.rounds[n].submissions)
    ensures r.metadata == b.metadata && r.participants == b.participants && r.messages == b.messages
  {
    var round := b.rounds[n];
    b.(rounds := b.rounds[n := round.(submissions := round.submissions[uid := s])])
  }

  /** Replaces one vote of one round; every other part of the battle is kept. */
  function PutVote(b: Battle, n: nat, voter: UserId, v: Vote): (r: Battle)
    requires n in b.rounds
    ensures r.rounds.Keys == b.rounds.Keys
    ensures forall k :: k in b.rounds && k != n ==> r.rounds[k] == b.rounds[k]
    ensures r.rounds[n].votes == b.rounds[n].votes[voter := v]
    ensures r.rounds[n] == b.rounds[n].(votes := r.rounds[n].votes)
    ensures r.metadata == b.metadata && r.participants == b.participants && r.messages == b.messages
  {
    var round := b.rounds[n];
    b.(rounds := b.rounds[n := round.(votes := round.votes[voter := v])])
  }

  function PutMessage(b: Battle, key: MessageKey, m: Message): (r: Battle)
    ensures r.messages == b.messages[key := m]
    ensures r.metadata == b.metadata && r.participants == b.participants && r.rounds == b.rounds
  {
    b.(messages := b.messages[key := m])
  }

  /** A second write to the same submission path replaces the first. */
  lemma PutSubmissionTwice(b: Battle, n: nat, uid: UserId, s1: Submission, s2: Submission)
    requires n in b.rounds
    ensures PutSubmission(PutSubmission(b, n, uid, s1), n, uid, s2) == PutSubmission(b, n, uid, s2)
    ensures SubmissionAt(PutSubmission(b, n, uid, s1), n, uid) == Some(s1)
  {
    var r1 := PutSubmission(PutSubmission(b, n, uid, s1), n, uid, s2);
    var r2 := PutSubmission(b, n, uid, s2);
    assert r1.rounds[n] == r2.rounds[n];
    assert r1.rounds == r2.rounds;
  }

  /** The submission stored at a path, if any. */
  function SubmissionAt(b: Battle, n: nat, uid: UserId): Option<Submission>
    requires n in b.rounds
  {
    if uid in b.rounds[n].submissions then Some(b.rounds[n].submissions[uid]) else None
  }

  // ---------------------------------------------------------------------------
  // Invariants of a stored battle
  // ---------------------------------------------------------------------------

  /** Only the creator can hold the host role: joining never makes a host. */
  ghost predicate OnlyCreatorIsHost(b: Battle) {
    forall u :: u in b.participants && b.participants[u].role == Host ==> u == b.metadata.hostId
  }

  /** Every round is still in its prompt phase: no operation of the store writes another round status. */
  ghost predicate InPromptPhase(b: Battle) {
    forall k :: k in b.rounds ==> b.rounds[k].status == PromptSubmission
  }

  ghost predicate BattleInvariant(b: Battle) {
    RoundProjection.RoundsKeyed(b.rounds) && OnlyCreatorIsHost(b) && InPromptPhase(b)
  }

  lemma InitialBattleInvariant(hostId: UserId, draft: BattleDraft, settings: BattleSettings, code: string, now: int)
    ensures BattleInvariant(InitialBattle(hostId, draft, settings, code, now))
  {
  }

  /** A participant written by joining keeps the battle's single host the creator. */
  lemma JoinKeepsInvariant(b: Battle, uid: UserId, displayName: string, role: JoinRole, now: int)
    requires BattleInvariant(b)
    ensures BattleInvariant(PutParticipant(b, uid, NewParticipant(displayName, role, now)))
    ensures OnlyCreatorIsHost(PutParticipant(b, uid, NewParticipant(displayName, role, now)))
  {
  }

  /** The code index after a join: the entry's participant count goes up by one, nothing else changes. */
  function CountJoin(index: map<string, ActiveBattle>, code: string): (r: map<string, ActiveBattle>)
    requires code in index
    ensures r.Keys == index.Keys
    ensures r[code] == index[code].(participantCount := index[code].participantCount + 1)
    ensures forall c :: c in index && c != code ==> r[c] == index[c]
  {
    index[code := index[code].(participantCount := index[code].participantCount + 1)]
  }

  datatype StoreError = BattleNotFound

  function StoreErrorMessage(e: StoreError): string {
    match e
    case BattleNotFound => "Battle not found"
  }

  // ---------------------------------------------------------------------------
  // The store
  // ---------------------------------------------------------------------------

  class Store {
    var battles: map<BattleId, Battle>
    var activeBattles: map<string, ActiveBattle>

    /**
     * Every stored battle keeps its invariant, and every indexed code has the
     * generated shape and resolves to a stored battle.
     */
    ghost predicate Valid()
      reads this
    {
      && (forall id :: id in battles ==> BattleInvariant(battles[id]))
      && (forall code :: code in activeBattles ==> IsBattleCode(code) && activeBattles[code].battleId in battles)
    }

    constructor ()
      ensures Valid() && battles == map[] && activeBattles == map[]
    {
      battles := map[];
      activeBattles := map[];
    }

    /**
     * `createBattle`: pushes a new battle under the fresh key `newId`, indexes it
     * under a newly drawn code (replacing any entry with that code: there is no
     * uniqueness check) with a participant count of 1, and returns the key.
     */
    method CreateBattle(hostId: UserId, draft: BattleDraft, settings: BattleSettings, now: int,
                        newId: BattleId, draws: seq<real>) returns (id: BattleId)
      requires Valid() && newId !in battles && ValidDraws(draws)
      modifies this
      ensures Valid()
      ensures id == newId
      ensures battles == old(battles)[id := InitialBattle(hostId, draft, settings, CodeFromDraws(draws), now)]
      ensures activeBattles == old(activeBattles)[CodeFromDraws(draws) :=
        ActiveBattle(id, draft.name, draft.name, BattleStatus.Waiting, 1, now)]
    {
      var code := GenerateBattleCode(draws);
      var battle := InitialBattle(hostId, draft, settings, code, now);
      InitialBattleInvariant(hostId, draft, settings, code, now);
      battles := battles[newId := battle];
      activeBattles := activeBattles[code := ActiveBattle(newId, draft.name, draft.name, BattleStatus.Waiting, 1, now)];
      id := newId;
    }

    /**
     * `joinBattle`: an unknown code fails with "Battle not found" and writes
     * nothing; otherwise the participant is written under `userId` with score 0,
     * the indexed count goes up by one, and the indexed battle id is returned.
     */
    method JoinBattle(code: string, userId: UserId, displayName: string, role: JoinRole, now: int)
      returns (r: Result<BattleId, StoreError>)
      requires Valid()
      modifies this
      ensures Valid()
      ensures code !in old(activeBattles) ==>
        r == Err(BattleNotFound) && battles == old(battles) && activeBattles == old(activeBattles)
      ensures code in old(activeBattles) ==>
        var entry := old(activeBattles)[code];
        && r == Ok(entry.battleId)
        && battles == old(battles)[entry.battleId :=
             PutParticipant(old(battles)[entry.battleId], userId, NewParticipant(displayName, role, now))]
        && activeBattles == CountJoin(old(activeBattles), code)
    {
      if code !in activeBattles {
        return Err(BattleNotFound);
      }
      var entry := activeBattles[code];
      var battleId := entry.battleId;
      JoinKeepsInvariant(battles[battleId], userId, displayName, role, now);
      battles := battles[battleId := PutParticipant(battles[battleId], userId, NewParticipant(displayName, role, now))];
      activeBattles := CountJoin(activeBattles, code);
      r := Ok(battleId);
    }

    /** `startRound`: sets `rounds/{roundNumber}` to a new prompt-submission round. */
    method StartRound(battleId: BattleId, roundNumber: nat, topic: string, now: int)
      requires Valid() && battleId in battles
      modifies this
      ensures Valid()
      ensures battles == old(battles)[battleId := PutRound(old(battles)[battleId], roundNumber, NewRound(roundNumber, topic, now))]
      ensures activeBattles == old(activeBattles)
    {
      battles := battles[battleId := PutRound(battles[battleId], roundNumber, NewRound(roundNumber, topic, now))];
    }

    /** `submitPrompt`: sets the caller's submission in the round to a pending one. */
    method SubmitPrompt(battleId: BattleId, roundNumber: nat, userId: UserId, prompt: string, now: int)
      requires Valid() && battleId in battles && roundNumber in battles[battleId].rounds
      modifies this
      ensures Valid()
      ensures battles == old(battles)[battleId :=
        PutSubmission(old(battles)[battleId], roundNumber, userId, NewSubmission(prompt, now))]
      ensures activeBattles == old(activeBattles)
    {
      battles := battles[battleId := PutSubmission(battles[battleId], roundNumber, userId, NewSubmission(prompt, now))];
    }

    /** `updateSubmissionStatus`: merges a status, and a non-empty URL or error, into a submission path. */
    method UpdateSubmissionStatus(battleId: BattleId, roundNumber: nat, userId: UserId, status: UpdateStatus,
                                  imageUrl: Option<string>, error: Option<string>)
      requires Valid() && battleId in battles && roundNumber in battles[battleId].rounds
      modifies this
      ensures Valid()
      ensures battles == old(battles)[battleId := PutSubmission(old(battles)[battleId], roundNumber, userId,
        MergeSubmission(SubmissionAt(old(battles)[battleId], roundNumber, userId), status, imageUrl, error))]
      ensures activeBattles == old(activeBattles)
    {
      var b := battles[battleId];
      var merged := MergeSubmission(SubmissionAt(b, roundNumber, userId), status, imageUrl, error);
      battles := battles[battleId := PutSubmission(b, roundNumber, userId, merged)];
    }

    /** `submitVote`: sets the voter's vote in the round. */
    method SubmitVote(battleId: BattleId, roundNumber: nat, voterId: UserId, votedForId: UserId, now: int)
      requires Valid() && battleId in battles && roundNumber in battles[battleId].rounds
      modifies this
      ensures Valid()
      ensures battles == old(battles)[battleId :=
        PutVote(old(battles)[battleId], roundNumber, voterId, Vote(votedForId, now))]
      ensures activeBattles == old(activeBattles)
    {
      battles := battles[battleId := PutVote(battles[battleId], roundNumber, voterId, Vote(votedForId, now))];
    }

    /** `sendMessage`: pushes a message under the fresh key `key`. */
    method SendMessage(battleId: BattleId, userId: UserId, content: string, messageType: MessageType, now: int,
                       key: MessageKey)
      requires Valid() && battleId in battles && key !in battles[battleId].messages
      modifies this
      ensures Valid()
      ensures battles == old(battles)[battleId := PutMessage(old(battles)[battleId], key, Message(userId, content, now, messageType))]
      ensures activeBattles == old(activeBattles)
      ensures battles[battleId].messages.Keys == old(battles)[battleId].messages.Keys + {key}
    {
      battles := battles[battleId := PutMessage(battles[battleId], key, Message(userId, content, now, messageType))];
    }
  }
}
