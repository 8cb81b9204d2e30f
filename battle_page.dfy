/**
 * The rules of the battle page (src/pages/BattlePage.tsx): who is the host, who
 * may submit and vote, which controls are rendered, what the two handlers let
 * through, how the prompt form cleans its input, and how a round's result is
 * looked up. All are pure functions of a battle snapshot, the projected current
 * round and the signed-in user id (`userId || ''`).
 */
module BattleView {
  import opened Wrappers
  import opened BattleTypes
  import opened RoundProjection
  import opened BattleStore
  import opened Text
  import BattleHook

  // ---------------------------------------------------------------------------
  // Derived predicates
  // ---------------------------------------------------------------------------

  predicate IsHost(b: Battle, uid: UserId) {
    b.metadata.hostId == uid
  }

  predicate IsContestant(b: Battle, uid: UserId) {
    uid in b.participants && b.participants[uid].role == Contestant
  }

  /** `currentRound?.submissions?.[userId]?.prompt` is truthy. */
  predicate HasSubmittedPrompt(cur: Option<Round>, uid: UserId) {
    cur.Some? && uid in cur.value.submissions && Truthy(cur.value.submissions[uid].prompt)
  }

  /** `currentRound?.votes?.[userId]?.votedFor` is truthy. */
  predicate HasVoted(cur: Option<Round>, uid: UserId) {
    cur.Some? && uid in cur.value.votes && cur.value.votes[uid].votedFor != ""
  }

  predicate CanVote(b: Battle, cur: Option<Round>, uid: UserId) {
    && cur.Some? && cur.value.status == Voting
    && !HasVoted(cur, uid)
    && (IsContestant(b, uid) || b.metadata.settings.spectatorVotingEnabled)
  }

  // ---------------------------------------------------------------------------
  // What the page renders
  // ---------------------------------------------------------------------------

  /** The three kinds of control that start a write. */
  datatype Control = StartButton | PromptForm | VoteButton(author: UserId)

  predicate ShowPromptForm(b: Battle, cur: Option<Round>, uid: UserId) {
    cur.Some? && cur.value.status == PromptSubmission && IsContestant(b, uid) && !HasSubmittedPrompt(cur, uid)
  }

  /** A submission card is drawn per submission in the voting phase; its button needs `canVote` and another author. */
  predicate ShowVoteButton(b: Battle, cur: Option<Round>, uid: UserId, author: UserId) {
    && cur.Some? && cur.value.status == Voting && author in cur.value.submissions
    && CanVote(b, cur, uid) && author != uid
  }

  /** "Start Battle" without a current round, "Start Next Round" on a completed one. */
  predicate ShowStartButton(b: Battle, cur: Option<Round>, uid: UserId) {
    IsHost(b, uid) && (cur.None? || cur.value.status == RoundStatus.Completed)
  }

  predicate ShowResults(cur: Option<Round>) {
    cur.Some? && cur.value.status == RoundStatus.Completed
  }

  /** Every control the page renders for `uid`. */
  function Controls(b: Battle, cur: Option<Round>, uid: UserId): (cs: set<Control>)
    ensures StartButton in cs <==> ShowStartButton(b, cur, uid)
    ensures PromptForm in cs <==> ShowPromptForm(b, cur, uid)
    ensures forall a :: VoteButton(a) in cs <==> ShowVoteButton(b, cur, uid, a)
  {
    (if ShowStartButton(b, cur, uid) then {StartButton} else {})
    + (if ShowPromptForm(b, cur, uid) then {PromptForm} else {})
    + (if cur.Some? then set a | a in cur.value.submissions && ShowVoteButton(b, cur, uid, a) :: VoteButton(a) else {})
  }

  /** What the page shows instead of the board while loading or after an error. */
  datatype Screen = Loading | ErrorScreen(message: string) | Board

  function PageScreen(loading: bool, error: Option<string>, battle: Option<Battle>): (s: Screen)
    ensures loading ==> s == Loading
    ensures s == Board <==> !loading && !Truthy(error) && battle.Some?
    ensures !loading && Truthy(error) ==> s == ErrorScreen(error.value)
    ensures !loading && !Truthy(error) && battle.None? ==> s == ErrorScreen("Battle not found")
  {
    if loading then Loading
    else if Truthy(error) then ErrorScreen(error.value)
    else if battle.None? then ErrorScreen("Battle not found")
    else Board
  }

  // ---------------------------------------------------------------------------
  // Handlers and the prompt form
  // ---------------------------------------------------------------------------

  /** The call a handler passes on to the battle controller. */
  datatype Command = SubmitPromptCall(prompt: string) | SubmitVoteCall(votedFor: UserId)

  /** `handlePromptSubmit`: nothing without a current round or for a non-contestant. */
  function HandlePromptSubmit(b: Battle, cur: Option<Round>, uid: UserId, prompt: string): (c: Option<Command>)
    ensures c.Some? <==> cur.Some? && IsContestant(b, uid)
    ensures c.Some? ==> c.value == SubmitPromptCall(prompt)
  {
    if cur.None? || !IsContestant(b, uid) then None else Some(SubmitPromptCall(prompt))
  }

  /** `handleVote`: nothing unless `canVote`. */
  function HandleVote(b: Battle, cur: Option<Round>, uid: UserId, author: UserId): (c: Option<Command>)
    ensures c.Some? <==> CanVote(b, cur, uid)
    ensures c.Some? ==> c.value == SubmitVoteCall(author)
  {
    if cur.None? || !CanVote(b, cur, uid) then None else Some(SubmitVoteCall(author))
  }

  /** The prompt form's submit: the trimmed text, or nothing for blank input. */
  function FormSubmit(text: string): (p: Option<string>)
    ensures p.None? <==> IsBlank(text)
    ensures p.Some? ==> p.value == Trim(text) && p.value != "" && Trim(p.value) == p.value
  {
    var t := Trim(text);
    TrimEmptyIffBlank(text);
    if t == "" then None
    else
      TrimIdempotent(text);
      Some(t)
  }

  // ---------------------------------------------------------------------------
  // The round result panel
  // ---------------------------------------------------------------------------

  datatype ResultsView =
    | NoWinner
    | WinnerShown(winnerName: Option<string>, imageUrl: Option<string>, prompt: Option<string>)
    | ResultsCrash   // a TypeError while looking the winner up

  /**
   * `RoundResults`: the winner's submission and display name. An empty
   * submissions or participants object is absent from the store, so indexing
   * it throws; so does reading the submission of a winner who has none.
   */
  function ResultsPanel(round: Round, b: Battle): (v: ResultsView)
    ensures round.submissions == map[] ==> v == ResultsCrash
    ensures b.participants == map[] ==> v == ResultsCrash
    ensures v.WinnerShown? ==>
      && round.results.Some? && round.results.value.winner in round.submissions
      && v.prompt == round.submissions[round.results.value.winner].prompt
      && (v.winnerName.Some? <==> round.results.value.winner in b.participants)
      && (v.winnerName.Some? ==> v.winnerName.value == b.participants[round.results.value.winner].displayName)
    ensures v.WinnerShown? ==>
      var s := round.submissions[round.results.value.winner];
      (v.imageUrl.Some? <==> Truthy(s.imageUrl)) && (v.imageUrl.Some? ==> v.imageUrl == s.imageUrl)
    ensures v == NoWinner <==>
      round.submissions != map[] && b.participants != map[] && (round.results.None? || round.results.value.winner == "")
    ensures round.submissions != map[] && b.participants != map[] && round.results.Some? && round.results.value.winner != "" ==>
      (v.WinnerShown? <==> round.results.value.winner in round.submissions)
      && (v == ResultsCrash <==> round.results.value.winner !in round.submissions)
  {
    if round.submissions == map[] || b.participants == map[] then ResultsCrash
    else if round.results.None? || round.results.value.winner == "" then NoWinner
    else
      var w := round.results.value.winner;
      if w !in round.submissions then ResultsCrash
      else
        var s := round.submissions[w];
        WinnerShown(
          if w in b.participants then Some(b.participants[w].displayName) else None,
          if Truthy(s.imageUrl) then s.imageUrl else None,
          s.prompt)
  }

  // ---------------------------------------------------------------------------
  // Properties
  // ---------------------------------------------------------------------------

  /** The vote button is never offered on the user's own submission. */
  lemma NoVoteOnOwnSubmission(b: Battle, cur: Option<Round>, uid: UserId)
    ensures VoteButton(uid) !in Controls(b, cur, uid)
  {
  }

  /** Every rendered control gets past the handler it triggers. */
  lemma ControlsPassHandlerGuards(b: Battle, cur: Option<Round>, uid: UserId, text: string, author: UserId)
    ensures PromptForm in Controls(b, cur, uid) && FormSubmit(text).Some? ==>
      HandlePromptSubmit(b, cur, uid, FormSubmit(text).value) == Some(SubmitPromptCall(Trim(text)))
    ensures VoteButton(author) in Controls(b, cur, uid) ==>
      HandleVote(b, cur, uid, author) == Some(SubmitVoteCall(author))
  {
  }

  /**
   * A prompt reaches the controller only as non-blank trimmed text, from a
   * contestant, while there is a current round.
   */
  lemma PromptReachesControllerTrimmed(b: Battle, cur: Option<Round>, uid: UserId, text: string)
    requires FormSubmit(text).Some? && HandlePromptSubmit(b, cur, uid, FormSubmit(text).value).Some?
    ensures HandlePromptSubmit(b, cur, uid, FormSubmit(text).value).value == SubmitPromptCall(Trim(text))
    ensures !IsBlank(text) && Trim(text) != ""
    ensures cur.Some? && IsContestant(b, uid)
  {
  }

  /** A voter who is not a contestant needs spectator voting; without it the host and spectators get no vote. */
  lemma NonContestantVotesOnlyWithSpectatorVoting(b: Battle, cur: Option<Round>, uid: UserId)
    ensures CanVote(b, cur, uid) && !IsContestant(b, uid) ==> b.metadata.settings.spectatorVotingEnabled
    ensures !IsContestant(b, uid) && !b.metadata.settings.spectatorVotingEnabled ==>
      HandleVote(b, cur, uid, uid).None? && forall a :: VoteButton(a) !in Controls(b, cur, uid)
  {
  }

  /**
   * On the projected current round the page never shows a completed round: the
   * "Start Next Round" button and the result panel are never rendered, and the
   * host's start button appears exactly when every round is completed.
   */
  lemma CompletedRoundNeverCurrent(b: Battle, uid: UserId)
    ensures !ShowResults(CurrentRound(b.rounds))
    ensures ShowStartButton(b, CurrentRound(b.rounds), uid) <==> IsHost(b, uid) && AllCompleted(b.rounds)
    ensures ShowStartButton(b, CurrentRound(b.rounds), uid) ==> CurrentRound(b.rounds).None?
  {
    CurrentRoundIsOpenMember(b.rounds);
  }

  /** After voting with a non-empty choice in the current round, the user can no longer vote in it. */
  lemma VotingClosesTheBallot(b: Battle, n: nat, uid: UserId, votedFor: UserId, now: int)
    requires RoundsKeyed(b.rounds) && n in b.rounds && CurrentRound(b.rounds) == Some(b.rounds[n])
    requires votedFor != ""
    ensures var b' := PutVote(b, n, uid, Vote(votedFor, now));
      && CurrentRound(b'.rounds) == Some(b'.rounds[n])
      && HasVoted(CurrentRound(b'.rounds), uid)
      && !CanVote(b', CurrentRound(b'.rounds), uid)
      && HandleVote(b', CurrentRound(b'.rounds), uid, votedFor).None?
  {
    var b' := PutVote(b, n, uid, Vote(votedFor, now));
    assert b'.rounds == b.rounds[n := b'.rounds[n]];
    CurrentRoundStableUnderStatusPreservingWrite(b.rounds, n, b'.rounds[n]);
  }

  /** After submitting a non-empty prompt in the current round, the prompt form is gone. */
  lemma SubmittingHidesTheForm(b: Battle, n: nat, uid: UserId, prompt: string, now: int)
    requires RoundsKeyed(b.rounds) && n in b.rounds && CurrentRound(b.rounds) == Some(b.rounds[n])
    requires prompt != ""
    ensures var b' := PutSubmission(b, n, uid, NewSubmission(prompt, now));
      && CurrentRound(b'.rounds) == Some(b'.rounds[n])
      && HasSubmittedPrompt(CurrentRound(b'.rounds), uid)
      && !ShowPromptForm(b', CurrentRound(b'.rounds), uid)
  {
    var b' := PutSubmission(b, n, uid, NewSubmission(prompt, now));
    assert b'.rounds == b.rounds[n := b'.rounds[n]];
    CurrentRoundStableUnderStatusPreservingWrite(b.rounds, n, b'.rounds[n]);
  }

  /**
   * No operation of the store moves a round out of its prompt phase, so on every
   * stored battle the page sits on the lowest-numbered round: no vote button,
   * no result panel, and once a round exists no start button either.
   */
  lemma PromptPhaseFreezesThePage(b: Battle, uid: UserId)
    requires InPromptPhase(b)
    ensures CurrentRound(b.rounds).None? <==> b.rounds == map[]
    ensures b.rounds != map[] ==> CurrentRound(b.rounds) == Some(b.rounds[MinKey(b.rounds.Keys)])
    ensures !CanVote(b, CurrentRound(b.rounds), uid) && !ShowResults(CurrentRound(b.rounds))
    ensures forall a :: VoteButton(a) !in Controls(b, CurrentRound(b.rounds), uid)
    ensures b.rounds != map[] ==> StartButton !in Controls(b, CurrentRound(b.rounds), uid)
  {
    var cur := CurrentRound(b.rounds);
    CurrentRoundIsFirstOpen(b.rounds);
    if b.rounds != map[] {
      var m := MinKey(b.rounds.Keys);
      assert FirstOpenKey(b.rounds, m);
      IsCurrentRoundUnique(b.rounds, cur, Some(b.rounds[m]));
    } else {
      assert AllCompleted(b.rounds);
    }
  }

  /** The controller's snapshot is a stored battle, so the board it feeds is frozen as above. */
  lemma ControllerBoardFrozen(c: BattleHook.BattleController, uid: UserId)
    requires c.Valid() && c.battle.Some?
    ensures c.currentRound == CurrentRound(c.battle.value.rounds)
    ensures !CanVote(c.battle.value, c.currentRound, uid) && !ShowResults(c.currentRound)
    ensures forall a :: VoteButton(a) !in Controls(c.battle.value, c.currentRound, uid)
    ensures c.battle.value.rounds != map[] ==> c.currentRound == Some(c.battle.value.rounds[MinKey(c.battle.value.rounds.Keys)])
    ensures c.battle.value.rounds != map[] ==> StartButton !in Controls(c.battle.value, c.currentRound, uid)
  {
    assert BattleInvariant(c.store.battles[c.battleId]);
    PromptPhaseFreezesThePage(c.battle.value, uid);
  }

  /**
   * The page mounts its controller without an API key, so the controller never
   * holds a content client and `startNewRound` fails its host check even for the host.
   */
  lemma PageControllerHasNoContentClient(c: BattleHook.BattleController)
    requires c.Valid() && c.apiKey == None
    ensures !c.hasContentClient
  {
  }

  /**
   * For a battle id the store does not hold, the snapshot stays absent and
   * loading never ends: the page keeps its loading screen and never reaches
   * "Battle not found".
   */
  lemma UnknownBattleStaysLoading(c: BattleHook.BattleController)
    requires c.Valid() && c.battleId !in c.store.battles
    ensures c.battle.None? && c.loading
    ensures PageScreen(c.loading, c.error, c.battle) == Loading
  {
  }
}
