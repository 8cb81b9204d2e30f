/**
 * The join form (src/pages/JoinBattlePage.tsx): the sign-in check comes first,
 * then the blank-code check, then the store's `joinBattle` with the code
 * upper-cased (not trimmed) and a requested host role turned into contestant.
 */
module JoinView {
  import opened Wrappers
  import opened BattleTypes
  import opened BattleStore
  import opened Text

  /** `role === 'host' ? 'contestant' : role`. */
  function MapJoinRole(role: UserRole): (j: JoinRole)
    ensures j != Host
    ensures role != Host ==> j == role
    ensures role == Host ==> j == Contestant
  {
    if role == Host then Contestant else role
  }

  datatype JoinDecision =
    | RejectNotLoggedIn
    | RejectBlankCode
    | CallJoin(code: string, userId: UserId, displayName: string, role: JoinRole)

  /** The two guards of `handleSubmit`, in order, and the arguments of the call behind them. */
  function DecideJoin(userId: Option<string>, displayName: Option<string>, code: string, role: UserRole): (d: JoinDecision)
    ensures d == RejectNotLoggedIn <==> !Truthy(userId) || !Truthy(displayName)
    ensures d == RejectBlankCode <==> Truthy(userId) && Truthy(displayName) && IsBlank(code)
    ensures d.CallJoin? ==>
      && d.code == ToUpperCase(code) && |d.code| == |code|
      && d.userId == userId.value && d.displayName == displayName.value
      && d.role == MapJoinRole(role)
  {
    TrimEmptyIffBlank(code);
    if !Truthy(userId) || !Truthy(displayName) then RejectNotLoggedIn
    else if Trim(code) == "" then RejectBlankCode
    else CallJoin(ToUpperCase(code), userId.value, displayName.value, MapJoinRole(role))
  }

  /** The toast texts of the two guards. */
  function RejectMessage(d: JoinDecision): (m: string)
    requires !d.CallJoin?
  {
    match d
    case RejectNotLoggedIn => "You must be logged in to join a battle"
    case RejectBlankCode => "Please enter a battle code"
  }

  /** Where the form leaves the user: the battle page, or an error toast. */
  datatype Outcome = Navigate(battleId: BattleId) | Toast(message: string)

  /**
   * `handleSubmit`: a rejected form writes nothing and shows its toast; an
   * accepted one joins through the store and goes to `/battle/{id}`, or shows
   * "Battle not found" when the upper-cased code is not indexed.
   */
  method HandleSubmit(store: Store, userId: Option<string>, displayName: Option<string>, code: string,
                      role: UserRole, now: int) returns (o: Outcome)
    requires store.Valid()
    modifies store
    ensures store.Valid()
    ensures !DecideJoin(userId, displayName, code, role).CallJoin? ==>
      o == Toast(RejectMessage(DecideJoin(userId, displayName, code, role)))
      && store.battles == old(store.battles) && store.activeBattles == old(store.activeBattles)
    ensures DecideJoin(userId, displayName, code, role).CallJoin? ==>
      var d := DecideJoin(userId, displayName, code, role);
      && (d.code !in old(store.activeBattles) ==>
            o == Toast("Battle not found")
            && store.battles == old(store.battles) && store.activeBattles == old(store.activeBattles))
      && (d.code in old(store.activeBattles) ==>
            var entry := old(store.activeBattles)[d.code];
            && o == Navigate(entry.battleId)
            && store.battles == old(store.battles)[entry.battleId := PutParticipant(old(store.battles)[entry.battleId],
                 d.userId, NewParticipant(d.displayName, d.role, now))]
            && store.activeBattles == CountJoin(old(store.activeBattles), d.code))
  {
    var d := DecideJoin(userId, displayName, code, role);
    if !d.CallJoin? {
      return Toast(RejectMessage(d));
    }
    var r := store.JoinBattle(d.code, d.userId, d.displayName, d.role, now);
    if r.Ok? {
      o := Navigate(r.value);
    } else {
      o := Toast(StoreErrorMessage(r.error));
    }
  }

  // ---------------------------------------------------------------------------
  // Properties
  // ---------------------------------------------------------------------------

  /** White space is not a lower-case letter, so upper-casing keeps blankness both ways. */
  lemma UpperCaseKeepsBlankness(s: string)
    ensures IsBlank(ToUpperCase(s)) <==> IsBlank(s)
  {
    var u := ToUpperCase(s);
    if IsBlank(u) {
      forall i | 0 <= i < |s| ensures IsWhiteSpace(s[i]) {
        assert IsWhiteSpace(u[i]);
      }
    }
  }

  /** Typing the code in lower or upper case makes the same decision. */
  lemma CodeCaseDoesNotMatter(userId: Option<string>, displayName: Option<string>, code: string, role: UserRole)
    ensures DecideJoin(userId, displayName, ToUpperCase(code), role) == DecideJoin(userId, displayName, code, role)
  {
    UpperCaseKeepsBlankness(code);
    ToUpperCaseIdempotent(code);
  }

  /**
   * The code is upper-cased but not trimmed: one carrying white space passes the
   * blank check and yet never matches a generated code.
   */
  lemma PaddedCodeNeverMatches(code: string, i: nat)
    requires i < |code| && IsWhiteSpace(code[i])
    ensures !IsBattleCode(ToUpperCase(code))
  {
    var u := ToUpperCase(code);
    assert u[i] == code[i];
    assert !('A' <= u[i] <= 'Z') && !('0' <= u[i] <= '9');
    CodeAlphabetIsAlphanumeric();
    assert u[i] !in CodeAlphabet;
  }

  /** A code carrying white space is never a key of the code index of a valid store. */
  lemma PaddedCodeIsNotFound(store: Store, code: string, i: nat)
    requires store.Valid()
    requires i < |code| && IsWhiteSpace(code[i])
    ensures ToUpperCase(code) !in store.activeBattles
  {
    PaddedCodeNeverMatches(code, i);
  }
}
