/**
 * Players. A player is a record of the fields the game's API supplies plus the stored prediction;
 * its identity (`equals`, `hashCode`, and so `List.remove` and `List.contains`) is the id alone.
 * The datatype constructor stands for the full constructor, which stores every argument in the
 * field of the same name.
 */
module Players {
  import opened Wrappers
  import opened Teams
  import JavaInt

  /**
   * `chanceOfPlaying…` are boxed integers (None for null); prices (`nowCost`) are in tenths.
   * `prediction` is the expected points the prediction service stores.
   */
  datatype Player = Player(
    id: int, team: PlayerTeam?, teamCode: int,
    chanceOfPlayingNextRound: Option<int>, chanceOfPlayingThisRound: Option<int>,
    elementType: int, firstName: string, form: string, nowCost: int, secondName: string,
    webName: string, selectedByPercent: string, totalPoints: int, transfersIn: int,
    transfersOut: int, minutes: int, goalsScored: int, assists: int, cleanSheets: int,
    goalsConceded: int, penaltiesSaved: int, saves: int, bonus: int, bps: int,
    influence: string, creativity: string, threat: string, ictIndex: string, starts: int,
    prediction: real)

  /** What `equals(Object)` may be handed: null, a player, or an object of another class. */
  datatype Obj = NullObj | PlayerObj(player: Player) | OtherObj

  /** `Player.equals`: another player with the same id. */
  predicate Equals(p: Player, o: Obj) {
    o.PlayerObj? && o.player.id == p.id
  }

  /** `Player.hashCode`: `Objects.hash(id)`, that is 31 + id in 32-bit arithmetic. */
  function HashCode(p: Player): (h: int)
    ensures JavaInt.IsInt32(h)
    ensures (h - 31 - p.id) % JavaInt.TwoTo32 == 0
  {
    JavaInt.Wrap32(31 + p.id)
  }

  /** Equality sees the id alone, is an equivalence, never holds for null or another class. */
  lemma EqualityIsById(p: Player, q: Player, r: Player)
    ensures Equals(p, PlayerObj(p))
    ensures !Equals(p, NullObj) && !Equals(p, OtherObj)
    ensures Equals(p, PlayerObj(q)) <==> p.id == q.id
    ensures Equals(p, PlayerObj(q)) ==> Equals(q, PlayerObj(p))
    ensures Equals(p, PlayerObj(q)) && Equals(q, PlayerObj(r)) ==> Equals(p, PlayerObj(r))
    ensures Equals(p, PlayerObj(q)) ==> HashCode(p) == HashCode(q)
  {
  }

  /** Some player in s has this id. */
  predicate HasId(s: seq<Player>, id: int) {
    exists i :: 0 <= i < |s| && s[i].id == id
  }

  /** No two players in s share an id. */
  predicate DistinctIds(s: seq<Player>) {
    forall i, j :: 0 <= i < j < |s| ==> s[i].id != s[j].id
  }

  /** Where `List.remove(Object)` looks: the first index holding this id, or |s| if none does. */
  function FirstWithId(s: seq<Player>, id: int): (k: nat)
    ensures k <= |s|
    ensures k < |s| ==> s[k].id == id
    ensures forall i :: 0 <= i < k ==> s[i].id != id
  {
    if s == [] || s[0].id == id then 0 else 1 + FirstWithId(s[1..], id)
  }

  /**
   * `List.remove(Object)`: drops the first player equal to one with this id, and leaves the list
   * as it is when there is none.
   */
  function RemoveFirst(s: seq<Player>, id: int): seq<Player> {
    var k := FirstWithId(s, id);
    if k == |s| then s else s[..k] + s[k + 1..]
  }

  /**
   * Removing by id leaves the list unchanged when the id is absent; otherwise it drops exactly
   * one element, the first with that id, so the result is a sub-multiset one shorter.
   */
  lemma RemoveFirstSpec(s: seq<Player>, id: int)
    ensures !HasId(s, id) ==> RemoveFirst(s, id) == s
    ensures HasId(s, id) ==> exists k :: 0 <= k < |s| && s[k].id == id && !HasId(s[..k], id)
                                        && RemoveFirst(s, id) == s[..k] + s[k + 1..]
    ensures multiset(RemoveFirst(s, id)) <= multiset(s)
    ensures |RemoveFirst(s, id)| == if HasId(s, id) then |s| - 1 else |s|
  {
    var k := FirstWithId(s, id);
    if k < |s| {
      assert !HasId(s[..k], id);
      assert s == s[..k] + [s[k]] + s[k + 1..];
      assert multiset(s) == multiset(s[..k]) + multiset{s[k]} + multiset(s[k + 1..]);
    }
  }

  /** `filterPlayersByPosition`: the players of one element type, in list order. */
  function OfPosition(s: seq<Player>, elementType: int): (r: seq<Player>)
    ensures forall i :: 0 <= i < |r| ==> r[i] in s && r[i].elementType == elementType
    ensures forall i :: 0 <= i < |s| && s[i].elementType == elementType ==> s[i] in r
  {
    if s == [] then []
    else (if s[0].elementType == elementType then [s[0]] else []) + OfPosition(s[1..], elementType)
  }

  lemma {:induction false} OfPositionSubMultiset(s: seq<Player>, elementType: int)
    ensures multiset(OfPosition(s, elementType)) <= multiset(s)
  {
    if s != [] {
      assert s == [s[0]] + s[1..];
      OfPositionSubMultiset(s[1..], elementType);
    }
  }

  /** Distinct ids survive passing to any sub-multiset. */
  lemma DistinctIdsSubMultiset(a: seq<Player>, b: seq<Player>)
    requires multiset(a) <= multiset(b) && DistinctIds(b)
    ensures DistinctIds(a)
  {
    if !DistinctIds(a) {
      var i, j :| 0 <= i < j < |a| && a[i].id == a[j].id;
      var i', j' := SharedIdInSuper(a, b, i, j);
      assert false;
    }
  }

  /** Two players of a with one id are two players of b with one id. */
  lemma SharedIdInSuper(a: seq<Player>, b: seq<Player>, i: nat, j: nat) returns (i': nat, j': nat)
    requires multiset(a) <= multiset(b)
    requires i < j < |a| && a[i].id == a[j].id
    ensures i' < j' < |b| && b[i'].id == b[j'].id
  {
    if a[i] == a[j] {
      TwoIndicesCount(a, i, j);
      i', j' := TwoIndices(b, a[i]);
    } else {
      assert a[i] in multiset(b) && a[j] in multiset(b);
      var x :| 0 <= x < |b| && b[x] == a[i];
      var y :| 0 <= y < |b| && b[y] == a[j];
      if x < y {
        i', j' := x, y;
      } else {
        i', j' := y, x;
      }
    }
  }

  lemma TwoIndicesCount(s: seq<Player>, i: nat, j: nat)
    requires i < j < |s| && s[i] == s[j]
    ensures multiset(s)[s[i]] >= 2
  {
    assert s == s[..j] + s[j..];
    assert s[i] in s[..j];
    assert s[j] in s[j..];
  }

  lemma {:induction false} TwoIndices(s: seq<Player>, x: Player) returns (i: nat, j: nat)
    requires multiset(s)[x] >= 2
    ensures i < j < |s| && s[i] == x && s[j] == x
  {
    assert s == [s[0]] + s[1..];
    if s[0] == x {
      assert x in multiset(s[1..]);
      var k :| 0 <= k < |s[1..]| && s[1..][k] == x;
      i, j := 0, k + 1;
    } else {
      var i', j' := TwoIndices(s[1..], x);
      i, j := i' + 1, j' + 1;
    }
  }

  /** A player with the given id, position, price, prediction and club, and defaults elsewhere. */
  function Sample(id: int, elementType: int, nowCost: int, prediction: real, club: PlayerTeam?): Player {
    Player(id, club, 0, None, None, elementType, "", "", nowCost, "", "", "", 0, 0, 0, 0, 0, 0, 0,
           0, 0, 0, 0, 0, "", "", "", "", 0, prediction)
  }
}
