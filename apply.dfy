/**
 * `applyTransfers`: walk the ranked candidates in order, re-checking each against the squad as
 * already changed (incoming id not present, budget covers the cost, a transfer left, fewer than
 * 3 counted players of the incoming club); apply each accepted one in place; then normalise
 * the squad to the 2/5/5/3 template. An exception leaves the squad as far as it got.
 */
module TransferApplication {
  import opened Wrappers
  import opened Players
  import opened Transfers
  import opened ClubCounts
  import opened Squads
  import opened Normalisation
  import opened Teams

  /** The loop's state: the three team fields and the running club counts. */
  datatype Progress = Progress(players: seq<Player>, budget: int, transfers: int,
                               counts: map<ClubKey, int>)

  /** Where the loop stopped: after the last candidate, or at the one that threw. */
  datatype Pass = Pass(progress: Progress, completed: bool)

  /** The team after `applyTransfers`, and whether it returned normally. */
  datatype Outcome = Outcome(state: SquadState, completed: bool)

  /** The four acceptance conditions, for a candidate whose incoming player has a club. */
  predicate Accepts(p: Progress, t: Transfer)
    requires t.playerIn.team != null
  {
    !HasId(p.players, t.playerIn.id) && p.budget >= CostDifference(t) && p.transfers > 0
    && CanAddPlayerFromTeam(t.playerIn.team.name, p.counts)
  }

  /** One iteration: an accepted candidate swaps the players, pays, uses a transfer and counts
   *  its club; a rejected one changes nothing. */
  function Step(p: Progress, t: Transfer): Progress
    requires t.playerIn.team != null
  {
    if Accepts(p, t) then
      Progress(RemoveFirst(p.players, t.playerOut.id) + [t.playerIn], p.budget - CostDifference(t),
               p.transfers - 1, Bump(p.counts, t.playerIn.team.name))
    else p
  }

  /** The loop: it throws at the first candidate whose incoming player has no club. */
  function Run(p: Progress, ts: seq<Transfer>): Pass
    decreases |ts|
  {
    if ts == [] then Pass(p, true)
    else if ts[0].playerIn.team == null then Pass(p, false)
    else Run(Step(p, ts[0]), ts[1..])
  }

  /** The candidates the loop accepts, in order. */
  function Accepted(p: Progress, ts: seq<Transfer>): seq<Transfer>
    decreases |ts|
  {
    if ts == [] || ts[0].playerIn.team == null then []
    else (if Accepts(p, ts[0]) then [ts[0]] else []) + Accepted(Step(p, ts[0]), ts[1..])
  }

  function TotalCost(ts: seq<Transfer>): int {
    if ts == [] then 0 else CostDifference(ts[0]) + TotalCost(ts[1..])
  }

  function Start(s: SquadState): Progress
    requires Countable(s.players)
  {
    Progress(s.players, s.budget, s.transfers, Tally(s.players))
  }

  /** The whole of `applyTransfers`: counting the squad may throw first, the loop may throw,
   *  and normalisation runs only when the loop finishes. */
  function Applied(s: SquadState, ts: seq<Transfer>): Outcome {
    if !Countable(s.players) then Outcome(s, false)
    else
      var pass := Run(Start(s), ts);
      var p := pass.progress;
      if !pass.completed then Outcome(SquadState(p.players, p.budget, p.transfers), false)
      else Outcome(SquadState(Normalise(p.players), p.budget, p.transfers), true)
  }

  /** `applyTransfers(team, bestTransfers)`; false where the source throws. */
  method ApplyTransfers(team: Team, bestTransfers: seq<Transfer>) returns (completed: bool)
    modifies team
    ensures Outcome(team.State(), completed) == Applied(old(team.State()), bestTransfers)
  {
    if !Countable(team.players) {
      return false;
    }
    var teamPlayerCount := Tally(team.players);
    ghost var start := Start(team.State());
    var i := 0;
    while i < |bestTransfers|
      invariant 0 <= i <= |bestTransfers|
      invariant Run(start, bestTransfers)
             == Run(Progress(team.players, team.budget, team.transfers, teamPlayerCount), bestTransfers[i..])
    {
      var transfer := bestTransfers[i];
      ghost var current := Progress(team.players, team.budget, team.transfers, teamPlayerCount);
      RunAt(current, bestTransfers, i);
      if transfer.playerIn.team == null {
        return false;
      }
      teamPlayerCount := Consider(team, transfer, teamPlayerCount);
      i := i + 1;
    }
    team.players := Normalise(team.players);
    completed := true;
  }

  /** The body of the loop for a candidate whose incoming player has a club: re-check it
   *  against the squad as changed so far and apply it in place when it is accepted. */
  method Consider(team: Team, transfer: Transfer, teamPlayerCount: map<ClubKey, int>)
    returns (counts: map<ClubKey, int>)
    requires transfer.playerIn.team != null
    modifies team
    ensures Progress(team.players, team.budget, team.transfers, counts)
         == Step(old(Progress(team.players, team.budget, team.transfers, teamPlayerCount)), transfer)
  {
    ghost var before := Progress(team.players, team.budget, team.transfers, teamPlayerCount);
    counts := teamPlayerCount;
    var playerInTeam := transfer.playerIn.team.name;
    var playerAlreadyInTeam := HasId(team.players, transfer.playerIn.id);
    if !playerAlreadyInTeam && team.budget >= CostDifference(transfer) && team.transfers > 0
       && CanAddPlayerFromTeam(playerInTeam, counts)
    {
      assert Accepts(before, transfer);
      team.budget := team.budget - CostDifference(transfer);
      team.transfers := team.transfers - 1;
      team.players := RemoveFirst(team.players, transfer.playerOut.id);
      team.players := team.players + [transfer.playerIn];
      counts := counts[playerInTeam := Get(counts, playerInTeam) + 1];
      assert counts == Bump(before.counts, playerInTeam);
    } else {
      assert !Accepts(before, transfer);
    }
  }

  /** One turn of the loop, at position i of the candidate list. */
  lemma RunAt(p: Progress, ts: seq<Transfer>, i: nat)
    requires i < |ts|
    ensures Run(p, ts[i..]) == if ts[i].playerIn.team == null then Pass(p, false)
                               else Run(Step(p, ts[i]), ts[i + 1..])
  {
    assert ts[i..][0] == ts[i] && ts[i..][1..] == ts[i + 1..];
  }

  /**
   * Budget and transfer accounting of the loop: each accepted candidate uses one transfer and
   * pays its cost; transfers never go below 0 from a non-negative start, so at most that many
   * candidates are accepted; after an accepted step the budget is not negative; and with
   * nothing accepted nothing changes.
   */
  lemma {:induction false} RunAccounting(p: Progress, ts: seq<Transfer>)
    ensures var r := Run(p, ts).progress; var acc := Accepted(p, ts);
      r.transfers == p.transfers - |acc|
      && r.budget == p.budget - TotalCost(acc)
      && (p.transfers >= 0 ==> r.transfers >= 0 && |acc| <= p.transfers)
      && (|acc| == 0 ==> r == p)
      && (|acc| > 0 ==> r.budget >= 0)
    decreases |ts|
  {
    if ts != [] && ts[0].playerIn.team != null {
      var rest := Accepted(Step(p, ts[0]), ts[1..]);
      RunAccounting(Step(p, ts[0]), ts[1..]);
      if Accepts(p, ts[0]) {
        assert ([ts[0]] + rest)[0] == ts[0] && ([ts[0]] + rest)[1..] == rest;
      } else {
        assert [] + rest == rest;
      }
    }
  }

  /** Every accepted candidate is one of the candidates. */
  lemma {:induction false} AcceptedAreCandidates(p: Progress, ts: seq<Transfer>)
    ensures forall i :: 0 <= i < |Accepted(p, ts)| ==> Accepted(p, ts)[i] in ts
    decreases |ts|
  {
    if ts != [] && ts[0].playerIn.team != null {
      AcceptedAreCandidates(Step(p, ts[0]), ts[1..]);
      var rest := Accepted(Step(p, ts[0]), ts[1..]);
      forall i | 0 <= i < |rest|
        ensures rest[i] in ts
      {
        assert rest[i] in ts[1..];
      }
    }
  }

  function Max(a: int, b: int): int {
    if a >= b then a else b
  }

  /** The running count of a club only grows by accepting one of its players below 3. */
  lemma {:induction false} RunCountsBounded(p: Progress, ts: seq<Transfer>)
    ensures forall key :: Get(Run(p, ts).progress.counts, key) <= Max(Get(p.counts, key), 3)
    decreases |ts|
  {
    if ts != [] && ts[0].playerIn.team != null {
      RunCountsBounded(Step(p, ts[0]), ts[1..]);
    }
  }

  /** The running counts never fall below the actual number of players of each club. */
  ghost predicate CountsCover(p: Progress) {
    forall key :: CountKey(p.players, key) <= Get(p.counts, key)
  }

  lemma StepCountsCover(p: Progress, t: Transfer)
    requires t.playerIn.team != null && CountsCover(p)
    ensures CountsCover(Step(p, t))
  {
    if Accepts(p, t) {
      var removed := RemoveFirst(p.players, t.playerOut.id);
      RemoveFirstSpec(p.players, t.playerOut.id);
      forall key
        ensures CountKey(removed + [t.playerIn], key) <= Get(Step(p, t).counts, key)
      {
        CountKeySubMultiset(removed, p.players, key);
        CountKeyAppend(removed, t.playerIn, key);
      }
    }
  }

  lemma {:induction false} RunCountsCover(p: Progress, ts: seq<Transfer>)
    requires CountsCover(p)
    ensures CountsCover(Run(p, ts).progress)
    decreases |ts|
  {
    if ts != [] && ts[0].playerIn.team != null {
      StepCountsCover(p, ts[0]);
      RunCountsCover(Step(p, ts[0]), ts[1..]);
    }
  }

  /** Ids stay distinct: the incoming id is checked against the squad before it is added. */
  lemma StepKeepsIdsDistinct(p: Progress, t: Transfer)
    requires t.playerIn.team != null && DistinctIds(p.players)
    ensures DistinctIds(Step(p, t).players)
  {
    if Accepts(p, t) {
      var removed := RemoveFirst(p.players, t.playerOut.id);
      RemoveFirstSpec(p.players, t.playerOut.id);
      DistinctIdsSubMultiset(removed, p.players);
      HasIdSubMultiset(removed, p.players, t.playerIn.id);
      var added := removed + [t.playerIn];
      forall i, j | 0 <= i < j < |added|
        ensures added[i].id != added[j].id
      {
        if j == |removed| {
          assert added[i] == removed[i];
        } else {
          assert added[i] == removed[i] && added[j] == removed[j];
        }
      }
    }
  }

  lemma HasIdSubMultiset(a: seq<Player>, b: seq<Player>, id: int)
    requires multiset(a) <= multiset(b)
    ensures HasId(a, id) ==> HasId(b, id)
  {
    if HasId(a, id) {
      var i :| 0 <= i < |a| && a[i].id == id;
      assert a[i] in multiset(b);
      var j :| 0 <= j < |b| && b[j] == a[i];
    }
  }

  lemma {:induction false} RunKeepsIdsDistinct(p: Progress, ts: seq<Transfer>)
    requires DistinctIds(p.players)
    ensures DistinctIds(Run(p, ts).progress.players)
    decreases |ts|
  {
    if ts != [] && ts[0].playerIn.team != null {
      StepKeepsIdsDistinct(p, ts[0]);
      RunKeepsIdsDistinct(Step(p, ts[0]), ts[1..]);
    }
  }

  /** The loop never shrinks the list and grows it by at most one per accepted candidate. */
  lemma {:induction false} RunLength(p: Progress, ts: seq<Transfer>)
    ensures |p.players| <= |Run(p, ts).progress.players| <= |p.players| + |Accepted(p, ts)|
    decreases |ts|
  {
    if ts != [] && ts[0].playerIn.team != null {
      if Accepts(p, ts[0]) {
        RemoveFirstSpec(p.players, ts[0].playerOut.id);
      }
      RunLength(Step(p, ts[0]), ts[1..]);
    }
  }

  /**
   * What `applyTransfers` guarantees about the team, whether it returns or throws:
   * transfers stay within 0..initial from a non-negative start; an unchanged transfer count
   * means an unchanged budget, a smaller one a non-negative budget; no club ends above
   * max(its initial count, 3); distinct ids stay distinct; and a normal return leaves at most
   * 15 players in template block order.
   */
  lemma AppliedSpec(s: SquadState, ts: seq<Transfer>)
    ensures var o := Applied(s, ts);
      (s.transfers >= 0 ==> 0 <= o.state.transfers <= s.transfers)
      && (o.state.transfers == s.transfers ==> o.state.budget == s.budget)
      && (o.state.transfers < s.transfers ==> o.state.budget >= 0)
      && (forall key :: CountKey(o.state.players, key) <= Max(CountKey(s.players, key), 3))
      && (DistinctIds(s.players) ==> DistinctIds(o.state.players))
      && (o.completed ==> |o.state.players| <= 15)
      && (o.completed ==> forall i, j :: 0 <= i < j < |o.state.players| ==>
                            o.state.players[i].elementType <= o.state.players[j].elementType)
  {
    if Countable(s.players) {
      var start := Start(s);
      var r := Run(start, ts).progress;
      RunAccounting(start, ts);
      TallyCounts(s.players);
      assert CountsCover(start);
      RunCountsCover(start, ts);
      RunCountsBounded(start, ts);
      forall key
        ensures CountKey(Applied(s, ts).state.players, key) <= Max(CountKey(s.players, key), 3)
      {
        assert CountKey(r.players, key) <= Get(r.counts, key);
        if Run(start, ts).completed {
          NormaliseSubMultiset(r.players);
          CountKeySubMultiset(Normalise(r.players), r.players, key);
        }
      }
      if DistinctIds(s.players) {
        RunKeepsIdsDistinct(start, ts);
        if Run(start, ts).completed {
          NormaliseKeepsIdsDistinct(r.players);
        }
      }
      if Run(start, ts).completed {
        NormaliseShape(r.players);
      }
    }
  }

  /** With no candidates accepted, a normal return only normalises the squad. */
  lemma NothingAcceptedOnlyNormalises(s: SquadState, ts: seq<Transfer>)
    requires Countable(s.players) && Accepted(Start(s), ts) == []
    requires Applied(s, ts).completed
    ensures Applied(s, ts).state == SquadState(Normalise(s.players), s.budget, s.transfers)
  {
    RunAccounting(Start(s), ts);
  }

  /**
   * The squad can grow: two accepted candidates with the same outgoing player both add their
   * incoming player, and the second removal finds nothing to remove.
   */
  lemma SquadCanGrow(club: PlayerTeam)
    requires club.name.Some?
    ensures var out := Sample(1, 3, 50, 5.0, club);
      var s := SquadState([out], 10, 2);
      var ts := [Transfer(out, Sample(2, 3, 50, 6.0, club)), Transfer(out, Sample(3, 3, 50, 7.0, club))];
      Applied(s, ts).completed && |Applied(s, ts).state.players| == 2
  {
    var in1 := Sample(2, 3, 50, 6.0, club);
    var in2 := Sample(3, 3, 50, 7.0, club);
    SampleRun(club);
    SamplePairFits(in1, in2);
    NormaliseWithinTemplate([in1, in2]);
  }

  /** The loop accepts both candidates of the sample and ends with both incoming players. */
  lemma SampleRun(club: PlayerTeam)
    requires club.name.Some?
    ensures var out := Sample(1, 3, 50, 5.0, club);
      var s := SquadState([out], 10, 2);
      var ts := [Transfer(out, Sample(2, 3, 50, 6.0, club)), Transfer(out, Sample(3, 3, 50, 7.0, club))];
      Countable(s.players) && Run(Start(s), ts).completed
      && Run(Start(s), ts).progress.players == [Sample(2, 3, 50, 6.0, club), Sample(3, 3, 50, 7.0, club)]
  {
    var out := Sample(1, 3, 50, 5.0, club);
    var in1 := Sample(2, 3, 50, 6.0, club);
    var in2 := Sample(3, 3, 50, 7.0, club);
    var s := SquadState([out], 10, 2);
    var ts := [Transfer(out, in1), Transfer(out, in2)];
    assert Countable([out]);
    var p0 := Start(s);
    assert [out][..0] == [];
    TallyCounts([out]);
    assert CountKey([out], club.name) == 1;
    assert !HasId([out], 2);
    var p1 := Step(p0, ts[0]);
    assert RemoveFirst([out], 1) == [];
    assert p1.players == [in1] && p1.transfers == 1 && Get(p1.counts, club.name) == 2;
    assert !HasId([in1], 3);
    var p2 := Step(p1, ts[1]);
    assert FirstWithId([in1], 1) == 1;
    assert p2.players == [in1, in2];
    assert ts[1..][0] == ts[1] && ts[1..][1..] == [];
    assert Run(p0, ts) == Run(p1, ts[1..]) == Run(p2, []) == Pass(p2, true);
  }

  /** Two midfielders fit the template. */
  lemma SamplePairFits(a: Player, b: Player)
    requires a.elementType == 3 && b.elementType == 3
    ensures forall i :: 0 <= i < |[a, b]| ==> 1 <= [a, b][i].elementType <= 4
    ensures forall k :: 1 <= k <= 4 ==> |OfPosition([a, b], k)| <= Quota(k)
  {
    forall k | 1 <= k <= 4
      ensures |OfPosition([a, b], k)| <= Quota(k)
    {
      assert [a, b][1..] == [b] && [b][1..] == [];
      if k == 3 {
        assert OfPosition([b], k) == [b];
        assert OfPosition([a, b], k) == [a, b];
      } else {
        assert OfPosition([b], k) == [];
        assert OfPosition([a, b], k) == [];
      }
    }
  }
}
