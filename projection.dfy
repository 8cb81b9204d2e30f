/**
 * The client's "current round" projection and round-number allocation
 * (src/hooks/useBattle.tsx). `Object.values` enumerates integer-like keys in
 * ascending numeric order (section 10.1.11.1 of ECMA-262, OrdinaryOwnPropertyKeys),
 * so the projection is `find` over the rounds in ascending round-number order.
 */
module RoundProjection {
  import opened Wrappers
  import opened BattleTypes

  // ---------------------------------------------------------------------------
  // Ascending key order
  // ---------------------------------------------------------------------------

  predicate IsLeast(s: set<nat>, m: nat) {
    m in s && forall k :: k in s ==> m <= k
  }

  lemma {:induction false} MinKeyExists(s: set<nat>)
    requires s != {}
    ensures exists m :: IsLeast(s, m)
    decreases |s|
  {
    var x :| x in s;
    if s == {x} {
      assert IsLeast(s, x);
    } else {
      var rest := s - {x};
      MinKeyExists(rest);
      var m :| IsLeast(rest, m);
      var least := if x < m then x else m;
      forall k | k in s ensures least <= k {
        if k != x { assert k in rest; }
      }
      assert IsLeast(s, least);
    }
  }

  /** The least element of a non-empty set of keys. */
  function MinKey(s: set<nat>): (m: nat)
    requires s != {}
    ensures m in s && forall k :: k in s ==> m <= k
  {
    MinKeyExists(s);
    var m :| IsLeast(s, m); m
  }

  ghost predicate StrictlyIncreasing(ks: seq<nat>) {
    forall i, j :: 0 <= i < j < |ks| ==> ks[i] < ks[j]
  }

  /** The keys of `s` in ascending order: each exactly once, nothing else. */
  function AscendingKeys(s: set<nat>): (ks: seq<nat>)
    ensures StrictlyIncreasing(ks)
    ensures forall i :: 0 <= i < |ks| ==> ks[i] in s
    ensures forall k :: k in s ==> k in ks
    decreases |s|
  {
    if s == {} then []
    else
      var m := MinKey(s);
      var rest := AscendingKeys(s - {m});
      assert forall i :: 0 <= i < |rest| ==> m < rest[i];
      [m] + rest
  }

  /** `Object.values(rounds)`: the rounds listed in ascending key order. */
  function ObjectValues(rounds: map<nat, Round>): (vs: seq<Round>)
    ensures |vs| == |AscendingKeys(rounds.Keys)|
    ensures forall i :: 0 <= i < |vs| ==> vs[i] == rounds[AscendingKeys(rounds.Keys)[i]]
  {
    var ks := AscendingKeys(rounds.Keys);
    seq(|ks|, i requires 0 <= i < |ks| => rounds[ks[i]])
  }

  /** `rounds.find(r => r.status !== 'completed')`. */
  function FindOpen(rs: seq<Round>): (r: Option<Round>)
  {
    if rs == [] then None
    else if rs[0].status != RoundStatus.Completed then Some(rs[0])
    else FindOpen(rs[1..])
  }

  /** Every round is stored under its own round number. */
  ghost predicate RoundsKeyed(rounds: map<nat, Round>) {
    forall k :: k in rounds ==> rounds[k].roundNumber == k
  }

  /** The round the client presents: the first non-completed one, or none. */
  function CurrentRound(rounds: map<nat, Round>): (r: Option<Round>)
  {
    FindOpen(ObjectValues(rounds))
  }

  // ---------------------------------------------------------------------------
  // Reference definition of the projection, and its proof
  // ---------------------------------------------------------------------------

  /** `k` is the lowest round number whose round is not completed. */
  ghost predicate FirstOpenKey(rounds: map<nat, Round>, k: nat) {
    && k in rounds
    && rounds[k].status != RoundStatus.Completed
    && forall j :: j in rounds && j < k ==> rounds[j].status == RoundStatus.Completed
  }

  ghost predicate AllCompleted(rounds: map<nat, Round>) {
    forall k :: k in rounds ==> rounds[k].status == RoundStatus.Completed
  }

  /** What the projection must return, stated without any enumeration order. */
  ghost predicate IsCurrentRound(rounds: map<nat, Round>, cur: Option<Round>) {
    match cur
    case None => AllCompleted(rounds)
    case Some(r) => exists k :: FirstOpenKey(rounds, k) && rounds[k] == r
  }

  lemma {:induction false} FindOpenSpec(rs: seq<Round>)
    ensures FindOpen(rs).None? <==> forall i :: 0 <= i < |rs| ==> rs[i].status == RoundStatus.Completed
    ensures FindOpen(rs).Some? ==>
      exists i :: 0 <= i < |rs| && rs[i] == FindOpen(rs).value && rs[i].status != RoundStatus.Completed
        && forall j :: 0 <= j < i ==> rs[j].status == RoundStatus.Completed
  {
    if rs != [] && rs[0].status == RoundStatus.Completed {
      FindOpenSpec(rs[1..]);
      if FindOpen(rs[1..]).Some? {
        var i :| 0 <= i < |rs[1..]| && rs[1..][i] == FindOpen(rs[1..]).value
          && rs[1..][i].status != RoundStatus.Completed
          && forall j :: 0 <= j < i ==> rs[1..][j].status == RoundStatus.Completed;
        assert rs[i + 1] == FindOpen(rs).value;
        assert forall j :: 0 <= j < i + 1 ==> rs[j].status == RoundStatus.Completed by {
          forall j | 0 <= j < i + 1 ensures rs[j].status == RoundStatus.Completed {
            if j > 0 { assert rs[j] == rs[1..][j - 1]; }
          }
        }
      } else {
        forall i | 0 <= i < |rs| ensures rs[i].status == RoundStatus.Completed {
          if i > 0 { assert rs[i] == rs[1..][i - 1]; }
        }
      }
    }
  }

  /** The projection meets its reference definition on every round map. */
  lemma CurrentRoundIsFirstOpen(rounds: map<nat, Round>)
    ensures IsCurrentRound(rounds, CurrentRound(rounds))
  {
    var vs := ObjectValues(rounds);
    FindOpenSpec(vs);
    if CurrentRound(rounds).Some? {
      var i :| 0 <= i < |vs| && vs[i] == CurrentRound(rounds).value && vs[i].status != RoundStatus.Completed
        && forall j :: 0 <= j < i ==> vs[j].status == RoundStatus.Completed;
      FirstOpenAtIndex(rounds, i);
    } else {
      AllCompletedFromValues(rounds);
    }
  }

  /** The first open value of `Object.values` sits under the first open key. */
  lemma FirstOpenAtIndex(rounds: map<nat, Round>, i: nat)
    requires i < |ObjectValues(rounds)| && ObjectValues(rounds)[i].status != RoundStatus.Completed
    requires forall j :: 0 <= j < i ==> ObjectValues(rounds)[j].status == RoundStatus.Completed
    ensures FirstOpenKey(rounds, AscendingKeys(rounds.Keys)[i])
    ensures rounds[AscendingKeys(rounds.Keys)[i]] == ObjectValues(rounds)[i]
  {
    var ks := AscendingKeys(rounds.Keys);
    var vs := ObjectValues(rounds);
    forall j | j in rounds && j < ks[i] ensures rounds[j].status == RoundStatus.Completed {
      var p :| 0 <= p < |ks| && ks[p] == j;
      assert p < i;
      assert vs[p] == rounds[j];
    }
  }

  lemma AllCompletedFromValues(rounds: map<nat, Round>)
    requires forall i :: 0 <= i < |ObjectValues(rounds)| ==> ObjectValues(rounds)[i].status == RoundStatus.Completed
    ensures AllCompleted(rounds)
  {
    var ks := AscendingKeys(rounds.Keys);
    var vs := ObjectValues(rounds);
    forall k | k in rounds ensures rounds[k].status == RoundStatus.Completed {
      var p :| 0 <= p < |ks| && ks[p] == k;
      assert vs[p] == rounds[k];
    }
  }

  /** The reference definition admits exactly one answer. */
  lemma IsCurrentRoundUnique(rounds: map<nat, Round>, a: Option<Round>, b: Option<Round>)
    requires IsCurrentRound(rounds, a) && IsCurrentRound(rounds, b)
    ensures a == b
  {
    if a.Some? && b.Some? {
      var ka :| FirstOpenKey(rounds, ka) && rounds[ka] == a.value;
      var kb :| FirstOpenKey(rounds, kb) && rounds[kb] == b.value;
      assert !(ka < kb) && !(kb < ka);
    }
  }

  /** The projection is a round of the map, keyed by some round number, and never a completed one. */
  lemma CurrentRoundIsOpenMember(rounds: map<nat, Round>)
    ensures CurrentRound(rounds).None? <==> AllCompleted(rounds)
    ensures CurrentRound(rounds).Some? ==>
      CurrentRound(rounds).value.status != RoundStatus.Completed
      && exists k :: k in rounds && rounds[k] == CurrentRound(rounds).value
  {
    CurrentRoundIsFirstOpen(rounds);
  }

  /**
   * Writing round `n` with a value of the same status leaves the projection on
   * the same round number: the submission and vote writes never move the client
   * to another round.
   */
  lemma CurrentRoundStableUnderStatusPreservingWrite(rounds: map<nat, Round>, n: nat, r: Round)
    requires RoundsKeyed(rounds)
    requires n in rounds && rounds[n].status == r.status
    ensures CurrentRound(rounds).None? <==> CurrentRound(rounds[n := r]).None?
    ensures CurrentRound(rounds) == Some(rounds[n]) ==> CurrentRound(rounds[n := r]) == Some(r)
    ensures CurrentRound(rounds).Some? && CurrentRound(rounds) != Some(rounds[n]) ==>
      CurrentRound(rounds[n := r]) == CurrentRound(rounds)
  {
    var rounds' := rounds[n := r];
    var cur, cur' := CurrentRound(rounds), CurrentRound(rounds');
    CurrentRoundIsFirstOpen(rounds);
    CurrentRoundIsFirstOpen(rounds');
    if cur.Some? {
      var k :| FirstOpenKey(rounds, k) && rounds[k] == cur.value;
      StatusPreservingWriteKeepsFirstOpen(rounds, n, r, k);
      IsCurrentRoundUnique(rounds', cur', Some(rounds'[k]));
      if k == n {
        assert cur' == Some(r);
      } else {
        assert rounds[k].roundNumber != rounds[n].roundNumber;
        assert cur' == cur;
      }
    } else {
      assert AllCompleted(rounds');
      IsCurrentRoundUnique(rounds', cur', None);
    }
  }

  /** A write that keeps round `n`'s status keeps the first open key. */
  lemma StatusPreservingWriteKeepsFirstOpen(rounds: map<nat, Round>, n: nat, r: Round, k: nat)
    requires n in rounds && rounds[n].status == r.status
    requires FirstOpenKey(rounds, k)
    ensures FirstOpenKey(rounds[n := r], k)
  {
  }

  // ---------------------------------------------------------------------------
  // Round-number allocation
  // ---------------------------------------------------------------------------

  /** `Object.keys(battle?.rounds || {}).length + 1`. */
  function NextRoundNumber(snapshot: Option<Battle>): (n: nat)
    ensures n >= 1
  {
    match snapshot
    case None => 1
    case Some(b) => |b.rounds.Keys| + 1
  }

  /** The round numbers are exactly 1..|rounds|. */
  ghost predicate Contiguous(rounds: map<nat, Round>) {
    forall k :: k in rounds <==> 1 <= k <= |rounds|
  }

  /**
   * On contiguous keys the allocated number is fresh, so starting a round never
   * overwrites one, and the keys stay contiguous after the write.
   */
  lemma NextRoundNumberIsFresh(b: Battle, r: Round)
    requires Contiguous(b.rounds)
    ensures NextRoundNumber(Some(b)) == |b.rounds| + 1
    ensures NextRoundNumber(Some(b)) !in b.rounds
    ensures Contiguous(b.rounds[NextRoundNumber(Some(b)) := r])
  {
    var n := NextRoundNumber(Some(b));
    assert |b.rounds.Keys| == |b.rounds|;
    assert n !in b.rounds;
    var rounds' := b.rounds[n := r];
    assert |rounds'| == |b.rounds| + 1;
    forall k ensures k in rounds' <==> 1 <= k <= |rounds'| {
      if k != n { assert k in rounds' <==> k in b.rounds; }
    }
  }

  /**
   * The allocation counts keys rather than taking the largest one: on a
   * non-contiguous map (only round 2 present) it hands out a number in use.
   */
  lemma NextRoundNumberCountsKeys(b: Battle)
    requires b.rounds.Keys == {2}
    ensures NextRoundNumber(Some(b)) == 2 && 2 in b.rounds
  {
    assert |b.rounds.Keys| == 1;
  }
}
