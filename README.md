# promptbattle: battle store, round projection and page rules in Dafny

This project models the core of promptbattle, a web game of prompt-writing battles. A host creates a
battle. Contestants and spectators join it with a six-character code. The host starts rounds with
generated topics, contestants submit prompts, the host generates images from them, and voters vote.

The model has six modules:

- `BattleTypes` (`types.dfy`) holds the records and enumerations of `src/types/battle.ts`.
- `BattleStore` (`store.dfy`) is the realtime database service `src/services/firebase.ts`. It is a
  class `Store` with two maps: `battles`, the tree under `battles/`, and `activeBattles`, the code
  index. Every operation is a method that states the whole new state through pure point-write
  functions (`PutRound`, `PutSubmission`, ...). The store's invariant `Valid` covers three things:
  - every battle's rounds are keyed by their own round number;
  - only the creator holds the host role;
  - every round is still in its prompt phase.
  The invariant also requires every indexed code to have the generated shape and to resolve to a
  stored battle.
- `RoundProjection` (`projection.dfy`) is the hook's current-round projection and its round-number
  allocation (`src/hooks/useBattle.tsx`). `Object.values` lists integer keys in ascending order
  (section 10.1.11.1 of ECMA-262), so the projection is `find` over ascending round numbers. It is
  proved equal to an order-free reference definition: the lowest-numbered round that is not
  completed.
- `BattleHook` (`controller.dfy`) is the hook itself, a class `BattleController`. It holds the
  snapshot, the projected current round, and the loading and error state. Its guarded actions
  write through the store.
- `BattleView` (`battle_page.dfy`) holds the rules of `src/pages/BattlePage.tsx`:
  - the role predicates;
  - which controls are rendered;
  - the two handler guards;
  - the prompt form's trimming;
  - the result panel's winner lookup.
- `JoinView` (`join_page.dfy`) holds the join form of `src/pages/JoinBattlePage.tsx`: the guard
  order, upper-casing, and the host-to-contestant role mapping.
- `Text` (`text.dfy`) holds `String.prototype.trim` (section 22.1.3.32 of ECMA-262) and an ASCII
  `toUpperCase`, and the JavaScript truthiness of an optional string (`Truthy`).

External effects are modelled as follows:

- The clock (`Date.now()`) becomes a `now` parameter.
- `Math.random()` becomes a sequence of reals in [0, 1).
- Push keys become fresh-key parameters.
- The content-generation client becomes a `Generated` parameter: what the call produced or threw.

Behaviour of the code worth knowing:

- **Current round.** The projection returns no round when every round is completed, not the last
  round (`useBattle.tsx:31-33`).
- **Next round number.** It is the number of round keys plus one, not the largest key plus one
  (`useBattle.tsx:47`). `NextRoundNumberCountsKeys` shows it re-using a number when keys have gaps.
- **Store checks.** The store checks neither phase nor duplicates for prompts or votes.
- **Missing operations.** There is no phase-advance or winner-declaration code. As a result, no
  round ever leaves prompt submission (`InPromptPhase` is part of the store's invariant). On every
  stored battle, the voting cards, the result panel and "Start Next Round" are never rendered
  (`PromptPhaseFreezesThePage`).
- **API key.** The battle page mounts the hook without an API key (`BattlePage.tsx:38-42`). So the
  hook never holds a content client, and `startNewRound` fails its host check even for the host
  (`PageControllerHasNoContentClient`).
- **Unknown battle id.** For an id the store does not hold, the subscription delivers `null`. The
  hook clears the snapshot and then throws reading `rounds` of it, before loading is turned off
  (`useBattle.tsx:28-35`). The page therefore stays on "Loading battle..." and never shows
  "Battle not found" (`UnknownBattleStaysLoading`).
- **Image writes.** `generateImage` keys all three of its writes by the caller's own user id, not
  by the submission's author (`useBattle.tsx:80-104`). `GenerateImage` reproduces this.

## Model

| member | source | states |
|---|---|---|
| BattleTypes.EnumerationsAreClosed | src/types/battle.ts:1-5 | each role and status enumeration is exactly its listed values |
| RoundProjection.AscendingKeys | src/hooks/useBattle.tsx:31 | the round numbers listed strictly increasing, each key of the map exactly once |
| RoundProjection.ObjectValues | src/hooks/useBattle.tsx:31 | one value per round key, the round under the i-th ascending key at position i |
| RoundProjection.FindOpen | src/hooks/useBattle.tsx:32 | the first listed round whose status is not completed, or none |
| RoundProjection.CurrentRound | src/hooks/useBattle.tsx:31-33 | the projection: `FindOpen` over the rounds in ascending key order (its meaning is proved by `CurrentRoundIsFirstOpen`) |
| RoundProjection.FindOpenSpec | src/hooks/useBattle.tsx:32 | `find` returns none iff every round is completed, else the first non-completed round after only completed ones |
| RoundProjection.CurrentRoundIsFirstOpen | src/hooks/useBattle.tsx:31-33 | the projection is the lowest-numbered non-completed round, or none when all are completed |
| RoundProjection.IsCurrentRoundUnique | src/hooks/useBattle.tsx:31-33 | the reference definition of the current round admits one answer |
| RoundProjection.CurrentRoundIsOpenMember | src/hooks/useBattle.tsx:31-33 | none iff all rounds completed; a result is a stored round and never a completed one |
| RoundProjection.CurrentRoundStableUnderStatusPreservingWrite | src/hooks/useBattle.tsx:31-33 | rewriting a round without changing its status keeps the projection on the same round number |
| RoundProjection.NextRoundNumber | src/hooks/useBattle.tsx:47 | the allocated number is at least 1 |
| RoundProjection.NextRoundNumberIsFresh | src/hooks/useBattle.tsx:47 | on contiguous round keys the number is count+1, unused, and keeps the keys contiguous |
| RoundProjection.NextRoundNumberCountsKeys | src/hooks/useBattle.tsx:47 | with only round 2 present the allocated number is 2, which is in use |
| Text.TrimStart | src/pages/BattlePage.tsx:220 | removes exactly a blank prefix, leaving a suffix that starts with a non-blank |
| Text.TrimEnd | src/pages/BattlePage.tsx:220 | removes exactly a blank suffix, leaving a prefix that ends with a non-blank |
| Text.Trim | src/pages/BattlePage.tsx:220-221 | the result is a slice of the input with only blanks outside it and non-blank ends |
| Text.TrimEmptyIffBlank | src/pages/BattlePage.tsx:220 | trimming gives the empty string exactly on all-white-space input |
| Text.TrimIdempotent | src/pages/BattlePage.tsx:221 | trimming the trimmed prompt changes nothing |
| Text.ToUpperCase | src/pages/JoinBattlePage.tsx:57 | same length; lower-case ASCII letters shifted to upper case, all else kept |
| Text.ToUpperCaseIdempotent | src/pages/JoinBattlePage.tsx:57 | upper-casing twice is upper-casing once |
| BattleStore.DrawIndex | src/services/firebase.ts:194 | `floor(random * 36)` is a position of the alphabet |
| BattleStore.CodeFromDraws | src/services/firebase.ts:190-197 | six characters, each from `A-Z0-9` |
| Text.Truthy | src/services/firebase.ts:133-134 | a string argument counts as true exactly when present and non-empty |
| BattleStore.GenerateBattleCode | src/services/firebase.ts:190-197 | the loop builds the code the draws select: six alphabet characters |
| BattleStore.NewParticipant | src/services/firebase.ts:73-80 | the joined participant: given name and role, online, score 0, both times `now` |
| BattleStore.InitialBattle | src/services/firebase.ts:23-44 | waiting battle of `hostId` with the passed settings; the host, named after the battle, is the only participant; no rounds or messages |
| BattleStore.NewRound | src/services/firebase.ts:91-100 | prompt-submission round with deadlines 60 s and 120 s after `now`, empty submissions and votes |
| BattleStore.NewSubmission | src/services/firebase.ts:111-115 | a complete pending submission with the prompt, no image or error |
| BattleStore.MergeSubmission | src/services/firebase.ts:131-140 | new status; URL and error only when non-empty; other fields kept; a merge into nothing has no prompt |
| BattleStore.PutParticipant | src/services/firebase.ts:82 | writes one participant, nothing else |
| BattleStore.PutRound | src/services/firebase.ts:102 | writes one round, nothing else |
| BattleStore.PutSubmission | src/services/firebase.ts:117-120 | writes one submission of one round; every other round and field kept |
| BattleStore.PutVote | src/services/firebase.ts:154-157 | writes one vote of one round; every other round and field kept |
| BattleStore.PutMessage | src/services/firebase.ts:173 | writes one message, nothing else |
| BattleStore.PutSubmissionTwice | src/services/firebase.ts:137-140 | a second write to a submission path replaces the first |
| BattleStore.InitialBattleInvariant | src/services/firebase.ts:23-44 | a created battle meets the battle invariant |
| BattleStore.JoinKeepsInvariant | src/services/firebase.ts:59-82 | joining with a non-host role keeps the creator the only host |
| BattleStore.StoreErrorMessage | src/services/firebase.ts:69 | the text `joinBattle` throws for an unknown code, "Battle not found", which the join form shows as its toast (`JoinBattlePage.tsx:75`) |
| BattleStore.Store.CreateBattle | src/services/firebase.ts:15-57 | adds the initial battle under the fresh key, indexes the drawn code with count 1, returns the key |
| BattleStore.CountJoin | src/services/firebase.ts:83-85 | the joined code's participant count goes up by one; every other entry and the key set kept |
| BattleStore.CodeAlphabetIsAlphanumeric | src/services/firebase.ts:191 | every alphabet character is an upper-case ASCII letter or a digit |
| BattleStore.Store.JoinBattle | src/services/firebase.ts:59-88 | unknown code: "Battle not found", no write; else participant written, the code's count + 1 (`CountJoin`), battle id returned |
| BattleStore.Store.StartRound | src/services/firebase.ts:90-103 | sets the round at its number to a new round; the index unchanged |
| BattleStore.Store.SubmitPrompt | src/services/firebase.ts:105-121 | sets the caller's submission to a pending one |
| BattleStore.Store.UpdateSubmissionStatus | src/services/firebase.ts:123-141 | merges status, URL and error into the submission path |
| BattleStore.Store.SubmitVote | src/services/firebase.ts:143-158 | sets the voter's vote |
| BattleStore.Store.SendMessage | src/services/firebase.ts:160-174 | adds one message under a fresh key |
| BattleHook.ErrorText | src/hooks/useBattle.tsx:51 | an Error's message, else the fallback text |
| BattleHook.ActionErrorMessage | src/hooks/useBattle.tsx:43-111 | the text each rejected action throws: the two host checks, "No active round", the null-read TypeErrors, and the caught error's text with its fallback |
| BattleHook.GenerationWrites | src/hooks/useBattle.tsx:79-106 | first `generating`, then `completed` with the URL or `failed` with the error; prompt kept |
| BattleHook.BattleController.constructor | src/hooks/useBattle.tsx:13-24 | for any battle id: loading, no snapshot; content client exactly for a host with an API key |
| BattleHook.BattleController.SetHost | src/hooks/useBattle.tsx:20-24 | the client is created once host and key are both present, never dropped |
| BattleHook.BattleController.Notify | src/hooks/useBattle.tsx:26-36 | stored id: snapshot replaced by the stored battle, current round re-projected, loading over; unknown id: snapshot cleared, then the null-read error with current round and loading kept; host flags and error untouched |
| BattleHook.BattleController.CurrentRoundIsStored | src/hooks/useBattle.tsx:31-33 | the current round is the stored round under its own number |
| BattleHook.BattleController.StartNewRound | src/hooks/useBattle.tsx:41-54 | non-host or no client: "Only the host can start a new round", no write, snapshot kept; topic failure: error set, no write; else round count+1 written and the snapshot re-read; host flags kept |
| BattleHook.BattleController.SubmitPrompt | src/hooks/useBattle.tsx:56-72 | no round: "No active round", no write, snapshot kept; else submission at the current round, which stays current; host flags kept |
| BattleHook.BattleController.GenerateImage | src/hooks/useBattle.tsx:74-107 | non-host: "Only the host can generate images"; null round throws before writing; both keep the snapshot; else the store after the first write holds the `generating` submission and the end state the last of `GenerationWrites`, at the caller's own path; host flags kept |
| BattleHook.BattleController.WriteGeneration | src/hooks/useBattle.tsx:80-104 | the first merge-write leaves the `generating` submission at the path, and the last leaves the last of `GenerationWrites` |
| BattleHook.BattleController.SubmitVote | src/hooks/useBattle.tsx:109-125 | no round: "No active round", no write, snapshot kept; else the caller's vote at the current round; host flags kept |
| BattleHook.BattleController.SendMessage | src/hooks/useBattle.tsx:127-134 | one message from this client added; host flags kept |
| BattleView.IsHost | src/pages/BattlePage.tsx:52 | the user is the battle's recorded host |
| BattleView.IsContestant | src/pages/BattlePage.tsx:72 | the user is a participant whose role is contestant |
| BattleView.HasSubmittedPrompt | src/pages/BattlePage.tsx:73 | the current round holds a submission of the user with a truthy prompt |
| BattleView.HasVoted | src/pages/BattlePage.tsx:74 | the current round holds a vote of the user with a non-empty choice |
| BattleView.CanVote | src/pages/BattlePage.tsx:75-78 | holds iff the round is voting, the user has no truthy vote, and the user is a contestant or spectator voting is on |
| BattleView.ShowPromptForm | src/pages/BattlePage.tsx:149 | the form shows iff the round is in prompt submission and the user is a contestant without a submitted prompt |
| BattleView.ShowVoteButton | src/pages/BattlePage.tsx:153-160 | a button on a voting round's submission iff the user can vote and is not its author |
| BattleView.ShowStartButton | src/pages/BattlePage.tsx:193-199 | iff the user is host and there is no current round or it is completed |
| BattleView.ShowResults | src/pages/BattlePage.tsx:167 | iff the current round is completed |
| BattleView.Controls | src/pages/BattlePage.tsx:149-203 | the rendered start button, prompt form and vote buttons, each exactly when its gate holds |
| BattleView.PageScreen | src/pages/BattlePage.tsx:56-70 | loading shows the loading screen; the board shows iff loaded, no error and a battle; otherwise the error, or "Battle not found" when there is no battle |
| BattleView.HandlePromptSubmit | src/pages/BattlePage.tsx:80-84 | passes the prompt on iff there is a current round and the user is a contestant |
| BattleView.HandleVote | src/pages/BattlePage.tsx:103-107 | passes the vote on iff the user can vote |
| BattleView.FormSubmit | src/pages/BattlePage.tsx:218-224 | blank input submits nothing; otherwise the trimmed, non-empty text |
| BattleView.ResultsPanel | src/pages/BattlePage.tsx:284-307 | an absent (empty) submissions or participants object throws; winner's prompt and name shown, the image iff its URL is truthy; no winner, no card; with both objects and a winner, the card iff the winner has a submission, else a throw |
| BattleView.NoVoteOnOwnSubmission | src/pages/BattlePage.tsx:160 | no vote button on the user's own submission |
| BattleView.ControlsPassHandlerGuards | src/pages/BattlePage.tsx:149-161 | every rendered form or vote button gets past its handler's guard |
| BattleView.PromptReachesControllerTrimmed | src/pages/BattlePage.tsx:80-84 | a prompt reaches the hook only trimmed, non-blank, from a contestant with a round |
| BattleView.NonContestantVotesOnlyWithSpectatorVoting | src/pages/BattlePage.tsx:75-78 | host and spectators vote only with spectator voting on |
| BattleView.CompletedRoundNeverCurrent | src/pages/BattlePage.tsx:193-203 | no result panel; start button iff host and all rounds completed, never "Start Next Round" |
| BattleView.VotingClosesTheBallot | src/pages/BattlePage.tsx:74-78 | after a non-empty vote in the current round the user cannot vote again |
| BattleView.SubmittingHidesTheForm | src/pages/BattlePage.tsx:149 | after a non-empty prompt the form is gone |
| BattleView.PromptPhaseFreezesThePage | src/pages/BattlePage.tsx:153-169 | with every round in its prompt phase: lowest round current, no votes, no results, no second start |
| BattleView.ControllerBoardFrozen | src/pages/BattlePage.tsx:153-169 | for the hook's snapshot of any stored battle: its current round is the projection, the lowest round once one exists; no vote, no vote button, no result panel, and no start button once a round exists |
| BattleView.PageControllerHasNoContentClient | src/pages/BattlePage.tsx:38-42 | a hook mounted without an API key has no content client |
| BattleView.UnknownBattleStaysLoading | src/hooks/useBattle.tsx:26-36 | for an id the store does not hold, the hook has no battle and is loading, so the page shows the loading screen |
| JoinView.MapJoinRole | src/pages/JoinBattlePage.tsx:60 | host becomes contestant; other roles kept; never host |
| JoinView.DecideJoin | src/pages/JoinBattlePage.tsx:33-61 | not signed in first, blank code second, else the call with the upper-cased code and mapped role |
| JoinView.RejectMessage | src/pages/JoinBattlePage.tsx:33-52 | the toast of each guard: the sign-in text, then the blank-code text |
| JoinView.HandleSubmit | src/pages/JoinBattlePage.tsx:30-81 | rejections write nothing; otherwise joins, raises the code's count by one and navigates, or "Battle not found" with no write |
| JoinView.UpperCaseKeepsBlankness | src/pages/JoinBattlePage.tsx:44-57 | upper-casing neither makes nor unmakes a blank code |
| JoinView.CodeCaseDoesNotMatter | src/pages/JoinBattlePage.tsx:57 | a lower-case code makes the same decision as its upper-case form |
| JoinView.PaddedCodeNeverMatches | src/pages/JoinBattlePage.tsx:44-57 | a code with white space passes the blank check but never has the generated shape |
| JoinView.PaddedCodeIsNotFound | src/services/firebase.ts:65-70 | such a code is never in the code index |

## Left out

- Replication, subscriptions and interleaving. `onValue`/`off` and concurrent clients are not modelled. A notification follows every completed write, and intermediate notifications are not modelled.
- Writes to a missing parent. A write to a battle id or round number that is absent would create a partial record. The model excludes it by precondition, since its records are typed.
- Write failures. A rejected database write, and the catch paths that only set the error after one, are not modelled.
- BattleHook.BattleController.SubmitPrompt: does not model the error set when the store write itself throws, because writes never fail in the model.
- BattleHook.BattleController.SubmitVote: does not model the error set when the store write itself throws, for the same reason.
- BattleHook.BattleController.SendMessage: does not model the error set when the store write itself throws, for the same reason.
- The content-generation client (`src/services/openai.ts`). It is not part of this model. Each call's outcome is a parameter.
- Clock and randomness. The clock is one `now` per operation. `Math.random()` is a sequence of reals in [0, 1).
- Number width. JavaScript numbers are unbounded integers here. Integer keys of 2^32 - 1 or more, which `Object.values` does not order numerically, are not modelled.
- Text.ToUpperCase: does not model the case mapping of non-ASCII letters. The code is typed by the user, and JavaScript maps some non-ASCII letters to ASCII (U+0131 to `I`, U+017F to `S`), so such a typed code can find a battle that the model reports as not found. `ß` becomes `SS`, so the model's same-length property holds only for its ASCII mapping.
- JoinView.PaddedCodeIsNotFound: codes holding path characters are modelled as ordinary missing keys of the code index. The database rejects a path with `.`, `#`, `$`, `[`, `]` or a control character, and `/` splits the path, so `ABCDEF/` reads the entry of `ABCDEF` and joins that battle where `Store.JoinBattle` reports it not found. Neither the rejection nor the splitting is modelled.
- Form constraints. The code input is required with `minLength` and `maxLength` 6 (`JoinBattlePage.tsx:90-99`), so the browser blocks an empty or short code before `handleSubmit` runs, even without a sign-in. This is not modelled; `DecideJoin` models `handleSubmit` itself.
- Code collisions. `createBattle` replaces an index entry with the same code. Uniqueness is not checked by the source and is not modelled.
- Empty-object elision. A stored empty object is absent. This is modelled only in `ResultsPanel`, for the round's submissions and the battle's participants. The voting cards' `Object.entries` on an absent submissions object is not modelled, since voting is unreachable.
- Authentication (`useAuth`) and the remaining pages. Creating a battle form, the app shell, login and home are not part of this model. The `User` record is not part of this model either.
- UI side effects. Toast timing, navigation on a missing sign-in (`BattlePage.tsx:44-48`) and rendering details are left out.
- Missing operations. Phase advance, winner declaration and scoring have no code in the source, so there is nothing to model.
