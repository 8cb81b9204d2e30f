/**
 * The client battle controller (src/hooks/useBattle.tsx): the snapshot of the
 * battle the client is subscribed to, the current round projected from it, and
 * the guarded actions that write through the store. The content-generation
 * client is opaque: each call's outcome is a parameter.
 */
module BattleHook {
  import opened Wrappers
  import opened BattleTypes
  import opened RoundProjection
  import opened BattleStore
  import opened Text

  /** What a call to the content-generation client produced or threw. */
  datatype Generated = Produced(value: string) | Threw(message: Option<string>)

  /** `err instanceof Error ? err.message : fallback`; `None` is a thrown non-Error. */
  function ErrorText(message: Option<string>, fallback: string): (t: string)
    ensures message.Some? ==> t == message.value
    ensures message.None? ==> t == fallback
  {
    match message
    case Some(m) => m
    case None => fallback
  }

  /** The errors the actions throw. */
  datatype ActionError =
    | OnlyHostCanStart
    | OnlyHostCanGenerate
    | NoActiveRound
    | NullCurrentRound               // the TypeError of `currentRound!.roundNumber` on a null round
    | TopicFailed(message: Option<string>)
    | ImageFailed(message: Option<string>)
    | NullSnapshot                   // the TypeError of `updatedBattle.rounds` on the null snapshot of an absent battle

  function ActionErrorMessage(e: ActionError): string {
    match e
    case OnlyHostCanStart => "Only the host can start a new round"
    case OnlyHostCanGenerate => "Only the host can generate images"
    case NoActiveRound => "No active round"
    // The two TypeError texts are V8's wording; other engines word them differently.
    case NullCurrentRound => "Cannot read properties of null (reading 'roundNumber')"
    case TopicFailed(m) => ErrorText(m, "Failed to start round")
    case ImageFailed(m) => ErrorText(m, "Failed to generate image")
    case NullSnapshot => "Cannot read properties of null (reading 'rounds')"
  }

  /**
   * The two submissions `generateImage` leaves at its path, in order: first the
   * one marked `generating`, then the one marked `completed` with the image URL
   * or `failed` with the error text.
   */
  function GenerationWrites(existing: Option<Submission>, image: Generated): (w: seq<Submission>)
    ensures |w| == 2
    ensures w[0] == MergeSubmission(existing, GenerationStatus.Generating, None, None)
    ensures w[0].generationStatus == GenerationStatus.Generating
    ensures image.Produced? ==> w[1].generationStatus == GenerationStatus.Completed
    ensures image.Produced? && image.value != "" ==> w[1].imageUrl == Some(image.value)
    ensures image.Threw? ==> w[1].generationStatus == Failed
    ensures image.Threw? && ErrorText(image.message, "Failed to generate image") != "" ==>
      w[1].error == Some(ErrorText(image.message, "Failed to generate image"))
    ensures existing.Some? ==> w[1].prompt == existing.value.prompt && w[1].submittedAt == existing.value.submittedAt
    ensures existing.None? ==> !w[1].Complete()
  {
    var first := MergeSubmission(existing, GenerationStatus.Generating, None, None);
    var last := match image
      case Produced(url) => MergeSubmission(Some(first), GenerationStatus.Completed, Some(url), None)
      case Threw(m) => MergeSubmission(Some(first), Failed, None, Some(ErrorText(m, "Failed to generate image")));
    [first, last]
  }

  class BattleController {
    const store: Store
    const battleId: BattleId
    const userId: UserId
    const apiKey: Option<string>
    var isHost: bool
    var hasContentClient: bool
    var battle: Option<Battle>
    var currentRound: Option<Round>
    var loading: bool
    var error: Option<string>

    /**
     * The snapshot is the stored battle (notifications follow every write), the
     * current round is projected from it, and loading lasts until the first
     * snapshot of a stored battle: for an id the store does not hold it never ends.
     */
    ghost predicate Valid()
      reads this, store
    {
      && store.Valid()
      && (battle.Some? ==> battleId in store.battles && battle.value == store.battles[battleId])
      && currentRound == (if battle.Some? then CurrentRound(battle.value.rounds) else None)
      && loading == battle.None?
      && (hasContentClient ==> Truthy(apiKey))
    }

    /** Mounting the hook: nothing loaded yet; the content client exists for a host with an API key. */
    constructor (store: Store, battleId: BattleId, userId: UserId, isHost: bool, apiKey: Option<string>)
      requires store.Valid()
      ensures Valid()
      ensures this.store == store && this.battleId == battleId && this.userId == userId
      ensures this.isHost == isHost && this.apiKey == apiKey
      ensures hasContentClient == (isHost && Truthy(apiKey))
      ensures battle.None? && currentRound.None? && loading && error.None?
    {
      this.store := store;
      this.battleId := battleId;
      this.userId := userId;
      this.isHost := isHost;
      this.apiKey := apiKey;
      hasContentClient := isHost && Truthy(apiKey);
      battle := None;
      currentRound := None;
      loading := true;
      error := None;
    }

    /** A new `isHost` prop: the effect creates the content client once host and key are both present. */
    method SetHost(flag: bool)
      requires Valid()
      modifies this
      ensures Valid()
      ensures isHost == flag
      ensures hasContentClient == (old(hasContentClient) || (flag && Truthy(apiKey)))
      ensures battle == old(battle) && currentRound == old(currentRound) && loading == old(loading) && error == old(error)
    {
      isHost := flag;
      if flag && Truthy(apiKey) {
        hasContentClient := true;
      }
    }

    /**
     * The subscription callback: the snapshot is replaced and the current round
     * recomputed from it alone. For an absent battle the snapshot is null: the
     * battle is cleared, then reading its rounds throws, so the current round
     * and the loading flag stay as they were. The store never removes a battle,
     * so a battle once seen is still stored.
     */
    method Notify() returns (r: Result<(), ActionError>)
      requires store.Valid()
      requires hasContentClient ==> Truthy(apiKey)
      requires battle.Some? ==> battleId in store.battles
      requires battle.None? ==> currentRound.None? && loading
      modifies this
      ensures Valid()
      ensures battleId in store.battles ==>
        && r == Ok(())
        && battle == Some(store.battles[battleId])
        && currentRound == CurrentRound(store.battles[battleId].rounds)
        && !loading
      ensures battleId !in store.battles ==>
        && r == Err(NullSnapshot)
        && ActionErrorMessage(r.error) == "Cannot read properties of null (reading 'rounds')"
        && battle.None? && currentRound == old(currentRound) && loading == old(loading)
      ensures isHost == old(isHost) && hasContentClient == old(hasContentClient) && error == old(error)
    {
      if battleId !in store.battles {
        battle := None;
        return Err(NullSnapshot);
      }
      var snapshot := store.battles[battleId];
      battle := Some(snapshot);
      currentRound := CurrentRound(snapshot.rounds);
      loading := false;
      r := Ok(());
    }

    /** The current round's number is a round of the stored battle. */
    lemma CurrentRoundIsStored()
      requires Valid() && currentRound.Some?
      ensures currentRound.value.roundNumber in store.battles[battleId].rounds
      ensures store.battles[battleId].rounds[currentRound.value.roundNumber] == currentRound.value
    {
      var rounds := battle.value.rounds;
      CurrentRoundIsOpenMember(rounds);
      var k :| k in rounds && rounds[k] == currentRound.value;
      assert RoundsKeyed(rounds);
    }

    /**
     * `startNewRound`: only a host with a content client may start; the round
     * number is the snapshot's round count plus one; a failing topic request sets
     * the error and writes nothing.
     */
    method StartNewRound(topic: Generated, now: int) returns (r: Result<(), ActionError>)
      requires Valid()
      requires isHost && hasContentClient && topic.Produced? ==> battleId in store.battles
      modifies this, store
      ensures Valid()
      ensures isHost == old(isHost) && hasContentClient == old(hasContentClient)
      ensures !old(isHost) || !old(hasContentClient) ==>
        && r == Err(OnlyHostCanStart) && ActionErrorMessage(r.error) == "Only the host can start a new round"
        && store.battles == old(store.battles) && error == old(error)
        && battle == old(battle) && currentRound == old(currentRound) && loading == old(loading)
      ensures old(isHost) && old(hasContentClient) && topic.Threw? ==>
        && r == Err(TopicFailed(topic.message))
        && store.battles == old(store.battles)
        && error == Some(ErrorText(topic.message, "Failed to start round"))
        && battle == old(battle) && currentRound == old(currentRound) && loading == old(loading)
      ensures old(isHost) && old(hasContentClient) && topic.Produced? ==>
        var n := NextRoundNumber(old(battle));
        && r == Ok(())
        && store.battles == old(store.battles)[battleId :=
             PutRound(old(store.battles)[battleId], n, NewRound(n, topic.value, now))]
        && error == old(error)
        && battle == Some(store.battles[battleId])
      ensures old(battle).Some? && Contiguous(old(battle).value.rounds) ==>
        NextRoundNumber(old(battle)) !in old(store.battles)[battleId].rounds
        && Contiguous(store.battles[battleId].rounds)
      ensures store.activeBattles == old(store.activeBattles)
    {
      if !isHost || !hasContentClient {
        return Err(OnlyHostCanStart);
      }
      var n := NextRoundNumber(battle);
      match topic {
        case Threw(m) =>
          error := Some(ErrorText(m, "Failed to start round"));
          r := Err(TopicFailed(m));
        case Produced(t) =>
          if battle.Some? && Contiguous(battle.value.rounds) {
            NextRoundNumberIsFresh(battle.value, NewRound(n, t, now));
          }
          store.StartRound(battleId, n, t, now);
          var _ := Notify();
          r := Ok(());
      }
    }

    /** `submitPrompt`: without a current round it throws and writes nothing; otherwise writes the caller's submission. */
    method SubmitPrompt(prompt: string, now: int) returns (r: Result<(), ActionError>)
      requires Valid()
      modifies this, store
      ensures Valid()
      ensures isHost == old(isHost) && hasContentClient == old(hasContentClient)
      ensures old(currentRound).None? ==>
        && r == Err(NoActiveRound) && ActionErrorMessage(r.error) == "No active round"
        && store.battles == old(store.battles)
        && battle == old(battle) && currentRound == old(currentRound) && loading == old(loading)
      ensures old(currentRound).Some? ==>
        var n := old(currentRound).value.roundNumber;
        && r == Ok(())
        && n in old(store.battles)[battleId].rounds
        && store.battles == old(store.battles)[battleId :=
             PutSubmission(old(store.battles)[battleId], n, userId, NewSubmission(prompt, now))]
        && battle == Some(store.battles[battleId])
        && currentRound == Some(store.battles[battleId].rounds[n])
      ensures store.activeBattles == old(store.activeBattles) && error == old(error)
    {
      if currentRound.None? {
        return Err(NoActiveRound);
      }
      CurrentRoundIsStored();
      var n := currentRound.value.roundNumber;
      var before := store.battles[battleId];
      store.SubmitPrompt(battleId, n, userId, prompt, now);
      CurrentRoundStableUnderStatusPreservingWrite(before.rounds, n, store.battles[battleId].rounds[n]);
      assert store.battles[battleId].rounds == before.rounds[n := store.battles[battleId].rounds[n]];
      var _ := Notify();
      r := Ok(());
    }

    /**
     * `generateImage`: only a host with a content client may generate; a null
     * current round throws before any write; otherwise three merge-writes in
     * order, all keyed by this client's own user id rather than by the author
     * of `submission`, whose prompt only feeds the image request. `mid` is the
     * store's battle tree right after the first (`generating`) write.
     */
    method GenerateImage(submission: Submission, image: Generated)
      returns (r: Result<(), ActionError>, ghost written: seq<Submission>, ghost mid: map<BattleId, Battle>)
      requires Valid()
      modifies this, store
      ensures Valid()
      ensures isHost == old(isHost) && hasContentClient == old(hasContentClient)
      ensures !old(isHost) || !old(hasContentClient) ==>
        && r == Err(OnlyHostCanGenerate) && ActionErrorMessage(r.error) == "Only the host can generate images"
        && store.battles == old(store.battles) && written == [] && mid == old(store.battles)
        && battle == old(battle) && currentRound == old(currentRound) && loading == old(loading)
      ensures old(isHost) && old(hasContentClient) && old(currentRound).None? ==>
        && r == Err(NullCurrentRound) && store.battles == old(store.battles) && written == []
        && mid == old(store.battles)
        && battle == old(battle) && currentRound == old(currentRound) && loading == old(loading)
      ensures old(isHost) && old(hasContentClient) && old(currentRound).Some? ==>
        var n := old(currentRound).value.roundNumber;
        && n in old(store.battles)[battleId].rounds
        && written == GenerationWrites(SubmissionAt(old(store.battles)[battleId], n, userId), image)
        && mid == old(store.battles)[battleId := PutSubmission(old(store.battles)[battleId], n, userId, written[0])]
        && store.battles == old(store.battles)[battleId := PutSubmission(old(store.battles)[battleId], n, userId, written[1])]
        && battle == Some(store.battles[battleId])
        && (image.Produced? <==> r == Ok(()))
        && (image.Threw? ==> r == Err(ImageFailed(image.message)))
      ensures store.activeBattles == old(store.activeBattles) && error == old(error)
    {
      written, mid := [], store.battles;
      if !isHost || !hasContentClient {
        return Err(OnlyHostCanGenerate), written, mid;
      }
      if currentRound.None? {
        return Err(NullCurrentRound), written, mid;
      }
      CurrentRoundIsStored();
      var n := currentRound.value.roundNumber;
      written, mid := WriteGeneration(n, image);
      r := if image.Produced? then Ok(()) else Err(ImageFailed(image.message));
      var _ := Notify();
    }

    /**
     * The three merge-writes of `generateImage` at submission path (n, userId), in
     * order: `mid` is the battle tree after the first, the end state after the last.
     */
    method WriteGeneration(n: nat, image: Generated)
      returns (ghost written: seq<Submission>, ghost mid: map<BattleId, Battle>)
      requires store.Valid() && battleId in store.battles && n in store.battles[battleId].rounds
      modifies store
      ensures store.Valid() && battleId in store.battles
      ensures written == GenerationWrites(SubmissionAt(old(store.battles)[battleId], n, userId), image)
      ensures mid == old(store.battles)[battleId := PutSubmission(old(store.battles)[battleId], n, userId, written[0])]
      ensures store.battles == old(store.battles)[battleId :=
        PutSubmission(old(store.battles)[battleId], n, userId, written[1])]
      ensures store.activeBattles == old(store.activeBattles)
    {
      ghost var before := store.battles[battleId];
      written := GenerationWrites(SubmissionAt(before, n, userId), image);
      store.UpdateSubmissionStatus(battleId, n, userId, GenerationStatus.Generating, None, None);
      mid := store.battles;
      PutSubmissionTwice(before, n, userId, written[0], written[1]);
      match image {
        case Produced(url) =>
          store.UpdateSubmissionStatus(battleId, n, userId, GenerationStatus.Completed, Some(url), None);
        case Threw(m) =>
          store.UpdateSubmissionStatus(battleId, n, userId, Failed, None, Some(ErrorText(m, "Failed to generate image")));
      }
    }

    /** `submitVote`: without a current round it throws and writes nothing; otherwise writes the caller's vote. */
    method SubmitVote(votedForId: UserId, now: int) returns (r: Result<(), ActionError>)
      requires Valid()
      modifies this, store
      ensures Valid()
      ensures isHost == old(isHost) && hasContentClient == old(hasContentClient)
      ensures old(currentRound).None? ==>
        && r == Err(NoActiveRound) && ActionErrorMessage(r.error) == "No active round"
        && store.battles == old(store.battles)
        && battle == old(battle) && currentRound == old(currentRound) && loading == old(loading)
      ensures old(currentRound).Some? ==>
        var n := old(currentRound).value.roundNumber;
        && r == Ok(())
        && n in old(store.battles)[battleId].rounds
        && store.battles == old(store.battles)[battleId :=
             PutVote(old(store.battles)[battleId], n, userId, Vote(votedForId, now))]
        && battle == Some(store.battles[battleId])
        && currentRound == Some(store.battles[battleId].rounds[n])
      ensures store.activeBattles == old(store.activeBattles) && error == old(error)
    {
      if currentRound.None? {
        return Err(NoActiveRound);
      }
      CurrentRoundIsStored();
      var n := currentRound.value.roundNumber;
      var before := store.battles[battleId];
      store.SubmitVote(battleId, n, userId, votedForId, now);
      CurrentRoundStableUnderStatusPreservingWrite(before.rounds, n, store.battles[battleId].rounds[n]);
      assert store.battles[battleId].rounds == before.rounds[n := store.battles[battleId].rounds[n]];
      var _ := Notify();
      r := Ok(());
    }

    /** `sendMessage`: pushes a message from this client under the fresh key `key`. */
    method SendMessage(content: string, messageType: MessageType, now: int, key: MessageKey)
      requires Valid() && battleId in store.battles && key !in store.battles[battleId].messages
      modifies this, store
      ensures Valid()
      ensures isHost == old(isHost) && hasContentClient == old(hasContentClient)
      ensures battleId in store.battles && battle == Some(store.battles[battleId])
      ensures store.battles == old(store.battles)[battleId :=
        PutMessage(old(store.battles)[battleId], key, Message(userId, content, now, messageType))]
      ensures store.activeBattles == old(store.activeBattles) && error == old(error)
    {
      store.SendMessage(battleId, userId, content, messageType, now, key);
      var _ := Notify();
    }
  }
}
