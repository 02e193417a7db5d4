/**
 * The per-club head count both transfer stages build with
 * `groupingBy(player -> player.getTeam().getName(), counting())`, and the 3-per-club test
 * `canAddPlayerFromTeam`. Keys are club names; a null name is the key None.
 */
module ClubCounts {
  import opened Wrappers
  import opened Players

  type ClubKey = Option<string>

  /** groupingBy throws when a player has no club or its club has no name. */
  predicate Countable(s: seq<Player>) {
    forall i :: 0 <= i < |s| ==> s[i].team != null && s[i].team.name.Some?
  }

  /** `Map.getOrDefault(key, 0)`. */
  function Get(counts: map<ClubKey, int>, key: ClubKey): int {
    if key in counts then counts[key] else 0
  }

  /** The count map after one more player of this club. */
  function Bump(counts: map<ClubKey, int>, key: ClubKey): (r: map<ClubKey, int>)
    ensures Get(r, key) == Get(counts, key) + 1
    ensures forall k :: k != key ==> Get(r, k) == Get(counts, k)
  {
    counts[key := Get(counts, key) + 1]
  }

  /** The map groupingBy builds, one player at a time. */
  function Tally(s: seq<Player>): map<ClubKey, int>
    requires Countable(s)
  {
    if s == [] then map[]
    else Bump(Tally(s[..|s| - 1]), s[|s| - 1].team.name)
  }

  /** The number of players in s whose club is named key. */
  function CountKey(s: seq<Player>, key: ClubKey): nat {
    if s == [] then 0
    else CountKey(s[..|s| - 1], key)
         + (if s[|s| - 1].team != null && s[|s| - 1].team.name == key then 1 else 0)
  }

  /** The grouped count of every club is its number of players. */
  lemma {:induction false} TallyCounts(s: seq<Player>)
    requires Countable(s)
    ensures forall key :: Get(Tally(s), key) == CountKey(s, key)
  {
    if s != [] {
      var init := s[..|s| - 1];
      assert Countable(init) by {
        forall i | 0 <= i < |init|
          ensures init[i].team != null && init[i].team.name.Some?
        {
          assert init[i] == s[i];
        }
      }
      TallyCounts(init);
    }
  }

  /** `canAddPlayerFromTeam`: the club has fewer than 3 players counted. */
  predicate CanAddPlayerFromTeam(teamName: ClubKey, counts: map<ClubKey, int>)
    ensures CanAddPlayerFromTeam(teamName, counts) <==> teamName !in counts || counts[teamName] < 3
  {
    Get(counts, teamName) < 3
  }

  lemma CountKeyAppend(s: seq<Player>, p: Player, key: ClubKey)
    ensures CountKey(s + [p], key)
         == CountKey(s, key) + (if p.team != null && p.team.name == key then 1 else 0)
  {
    assert (s + [p])[..|s + [p]| - 1] == s;
  }

  /** The count of a club over a concatenation is the sum of the counts. */
  lemma {:induction false} CountKeyConcat(a: seq<Player>, b: seq<Player>, key: ClubKey)
    ensures CountKey(a + b, key) == CountKey(a, key) + CountKey(b, key)
    decreases |b|
  {
    if b != [] {
      var init := b[..|b| - 1];
      assert a + b == (a + init) + [b[|b| - 1]];
      CountKeyAppend(a + init, b[|b| - 1], key);
      CountKeyConcat(a, init, key);
    } else {
      assert a + b == a;
    }
  }

  /** Counts depend on the multiset alone, and shrink with it. */
  lemma {:induction false} CountKeySubMultiset(a: seq<Player>, b: seq<Player>, key: ClubKey)
    requires multiset(a) <= multiset(b)
    ensures CountKey(a, key) <= CountKey(b, key)
    decreases |a|
  {
    if a != [] {
      var x := a[|a| - 1];
      var init := a[..|a| - 1];
      assert a == init + [x];
      assert x in multiset(b);
      var k :| 0 <= k < |b| && b[k] == x;
      var rest := b[..k] + b[k + 1..];
      assert b == b[..k] + [x] + b[k + 1..];
      assert multiset(b) == multiset(rest) + multiset{x};
      assert multiset(a) == multiset(init) + multiset{x};
      assert multiset(init) <= multiset(rest) by {
        forall y
          ensures multiset(init)[y] <= multiset(rest)[y]
        {
          assert multiset(a)[y] <= multiset(b)[y];
        }
      }
      CountKeySubMultiset(init, rest, key);
      CountKeyRemove(b, k, key);
      CountKeyAppend(init, x, key);
    }
  }

  /** Taking one player out of a list lowers the counts by that player's club alone. */
  lemma CountKeyRemove(b: seq<Player>, k: nat, key: ClubKey)
    requires k < |b|
    ensures CountKey(b, key) == CountKey(b[..k] + b[k + 1..], key)
                                + (if b[k].team != null && b[k].team.name == key then 1 else 0)
  {
    var x := b[k];
    assert b == b[..k] + [x] + b[k + 1..];
    CountKeyConcat(b[..k] + [x], b[k + 1..], key);
    CountKeyConcat(b[..k], [x], key);
    CountKeyConcat(b[..k], b[k + 1..], key);
    assert CountKey([x], key) == (if x.team != null && x.team.name == key then 1 else 0) by {
      assert [x][..0] == [];
    }
  }
}
