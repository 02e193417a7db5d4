/**
 * Clubs and fixtures. A club (`PlayerTeam`) owns two fixture lists that `addHomeFixture` and
 * `addAwayFixture` extend in place, keeping the other club's list consistent; a fixture is a
 * plain value holding references to its two clubs.
 */
module Teams {
  import opened Wrappers
  import JavaInt

  /**
   * A match in a gameweek. `hometeam` and `awayteam` may be null. Equality is field by field
   * (`FixtureEquals`), comparing the clubs with `PlayerTeam.equals`.
   */
  datatype Fixture = Fixture(id: string, gw: int, hometeam: PlayerTeam?, awayteam: PlayerTeam?,
                             isDone: bool, result: string)

  class PlayerTeam {
    /** The identity of a club: `equals` and `hashCode` look at nothing else. */
    const code: int
    /** None where the no-argument constructor left the name null. */
    const name: Option<string>
    const shortName: Option<string>
    const homeStrength: int
    const awayStrength: int
    var homeFixtures: seq<Fixture>
    var awayFixtures: seq<Fixture>

    constructor (code: int, name: string, shortName: string, homeStrength: int, awayStrength: int)
      ensures this.code == code && this.name == Some(name) && this.shortName == Some(shortName)
      ensures this.homeStrength == homeStrength && this.awayStrength == awayStrength
      ensures homeFixtures == [] && awayFixtures == []
    {
      this.code := code;
      this.name := Some(name);
      this.shortName := Some(shortName);
      this.homeStrength := homeStrength;
      this.awayStrength := awayStrength;
      homeFixtures := [];
      awayFixtures := [];
    }

    /** The no-argument constructor: every field keeps its Java default. */
    constructor Blank()
      ensures code == 0 && name == None && shortName == None
      ensures homeStrength == 0 && awayStrength == 0
      ensures homeFixtures == [] && awayFixtures == []
    {
      code := 0;
      name := None;
      shortName := None;
      homeStrength := 0;
      awayStrength := 0;
      homeFixtures := [];
      awayFixtures := [];
    }

    /** Home fixtures followed by away fixtures, as a new list. */
    function AllFixtures(): seq<Fixture>
      reads this
    {
      homeFixtures + awayFixtures
    }

    /** `equals`: the same club code (a null argument is never equal). */
    predicate Equals(o: PlayerTeam?) {
      o != null && o.code == code
    }

    /** `hashCode`: `Objects.hash(code)`, that is 31 + code in 32-bit arithmetic. */
    function HashCode(): (h: int)
      ensures JavaInt.IsInt32(h)
      ensures (h - 31 - code) % JavaInt.TwoTo32 == 0
    {
      JavaInt.Wrap32(31 + code)
    }

    /**
     * Records f as a home fixture of this club, and as an away fixture of its away club; a
     * fixture this club already lists as a home fixture changes nothing. When this club is
     * also the away club, both of its lists grow.
     */
    method AddHomeFixture(f: Fixture)
      modifies this, f.awayteam
      ensures Contains(homeFixtures, f)
      ensures Contains(old(homeFixtures), f) ==>
        homeFixtures == old(homeFixtures) && awayFixtures == old(awayFixtures)
        && (f.awayteam != null ==> f.awayteam.awayFixtures == old(f.awayteam.awayFixtures))
      ensures !Contains(old(homeFixtures), f) ==> homeFixtures == old(homeFixtures) + [f]
      ensures !Contains(old(homeFixtures), f) && f.awayteam != null ==>
        f.awayteam.awayFixtures == old(f.awayteam.awayFixtures)
          + (if Contains(old(f.awayteam.awayFixtures), f) then [] else [f])
      ensures !Contains(old(homeFixtures), f) && f.awayteam != null ==>
        Contains(f.awayteam.awayFixtures, f)
      ensures f.awayteam != this ==> awayFixtures == old(awayFixtures)
      ensures f.awayteam != null && f.awayteam != this ==>
        f.awayteam.homeFixtures == old(f.awayteam.homeFixtures)
    {
      if !Contains(homeFixtures, f) {
        homeFixtures := homeFixtures + [f];
        ContainsAppended(old(homeFixtures), f);
        if f.awayteam != null && !Contains(f.awayteam.awayFixtures, f) {
          ContainsAppended(f.awayteam.awayFixtures, f);
          f.awayteam.awayFixtures := f.awayteam.awayFixtures + [f];
        }
      }
    }

    /** The mirror image of AddHomeFixture: this club's away list and the home club's home list. */
    method AddAwayFixture(f: Fixture)
      modifies this, f.hometeam
      ensures Contains(awayFixtures, f)
      ensures Contains(old(awayFixtures), f) ==>
        homeFixtures == old(homeFixtures) && awayFixtures == old(awayFixtures)
        && (f.hometeam != null ==> f.hometeam.homeFixtures == old(f.hometeam.homeFixtures))
      ensures !Contains(old(awayFixtures), f) ==> awayFixtures == old(awayFixtures) + [f]
      ensures !Contains(old(awayFixtures), f) && f.hometeam != null ==>
        f.hometeam.homeFixtures == old(f.hometeam.homeFixtures)
          + (if Contains(old(f.hometeam.homeFixtures), f) then [] else [f])
      ensures !Contains(old(awayFixtures), f) && f.hometeam != null ==>
        Contains(f.hometeam.homeFixtures, f)
      ensures f.hometeam != this ==> homeFixtures == old(homeFixtures)
      ensures f.hometeam != null && f.hometeam != this ==>
        f.hometeam.awayFixtures == old(f.hometeam.awayFixtures)
    {
      if !Contains(awayFixtures, f) {
        awayFixtures := awayFixtures + [f];
        ContainsAppended(old(awayFixtures), f);
        if f.hometeam != null && !Contains(f.hometeam.homeFixtures, f) {
          ContainsAppended(f.hometeam.homeFixtures, f);
          f.hometeam.homeFixtures := f.hometeam.homeFixtures + [f];
        }
      }
    }
  }

  /** Null-safe club equality, as Lombok's generated `Fixture.equals` compares its club fields. */
  predicate TeamEquals(a: PlayerTeam?, b: PlayerTeam?) {
    if a == null then b == null else a.Equals(b)
  }

  /** Lombok `@Data` equality of fixtures: every field equal, clubs by code. */
  predicate FixtureEquals(a: Fixture, b: Fixture) {
    a.id == b.id && a.gw == b.gw && TeamEquals(a.hometeam, b.hometeam)
    && TeamEquals(a.awayteam, b.awayteam) && a.isDone == b.isDone && a.result == b.result
  }

  /** `List.contains`: some element equals f. */
  predicate Contains(s: seq<Fixture>, f: Fixture) {
    exists i :: 0 <= i < |s| && FixtureEquals(s[i], f)
  }

  /** Club equality is an equivalence that sees the code alone, and equal clubs hash equally. */
  lemma TeamEqualityIsByCode(a: PlayerTeam, b: PlayerTeam, c: PlayerTeam)
    ensures a.Equals(a) && !a.Equals(null)
    ensures a.Equals(b) <==> a.code == b.code
    ensures a.Equals(b) ==> b.Equals(a)
    ensures a.Equals(b) && b.Equals(c) ==> a.Equals(c)
    ensures a.Equals(b) ==> a.HashCode() == b.HashCode()
  {
  }

  /** Fixture equality is an equivalence. */
  lemma FixtureEqualsIsEquivalence(a: Fixture, b: Fixture, c: Fixture)
    ensures FixtureEquals(a, a)
    ensures FixtureEquals(a, b) ==> FixtureEquals(b, a)
    ensures FixtureEquals(a, b) && FixtureEquals(b, c) ==> FixtureEquals(a, c)
  {
  }

  /** After appending f, the list contains f and everything it contained before. */
  lemma ContainsAppended(s: seq<Fixture>, f: Fixture)
    ensures Contains(s + [f], f)
    ensures forall g :: Contains(s, g) ==> Contains(s + [f], g)
  {
    assert (s + [f])[|s|] == f;
    forall g | Contains(s, g)
      ensures Contains(s + [f], g)
    {
      var i :| 0 <= i < |s| && FixtureEquals(s[i], g);
      assert (s + [f])[i] == s[i];
    }
  }

  /** Adding a home fixture twice has the effect of adding it once, on both clubs. */
  method AddHomeFixtureTwice(t: PlayerTeam, f: Fixture)
    modifies t, f.awayteam
    ensures Contains(t.homeFixtures, f)
    ensures Contains(old(t.homeFixtures), f) ==>
      t.homeFixtures == old(t.homeFixtures) && t.awayFixtures == old(t.awayFixtures)
      && (f.awayteam != null ==> f.awayteam.awayFixtures == old(f.awayteam.awayFixtures))
    ensures !Contains(old(t.homeFixtures), f) ==> t.homeFixtures == old(t.homeFixtures) + [f]
    ensures !Contains(old(t.homeFixtures), f) && f.awayteam != null ==>
      f.awayteam.awayFixtures == old(f.awayteam.awayFixtures)
        + (if Contains(old(f.awayteam.awayFixtures), f) then [] else [f])
    ensures f.awayteam != t ==> t.awayFixtures == old(t.awayFixtures)
    ensures f.awayteam != null && f.awayteam != t ==>
      f.awayteam.homeFixtures == old(f.awayteam.homeFixtures)
  {
    t.AddHomeFixture(f);
    t.AddHomeFixture(f);
  }

  /** Adding an away fixture twice has the effect of adding it once, on both clubs. */
  method AddAwayFixtureTwice(t: PlayerTeam, f: Fixture)
    modifies t, f.hometeam
    ensures Contains(t.awayFixtures, f)
    ensures Contains(old(t.awayFixtures), f) ==>
      t.homeFixtures == old(t.homeFixtures) && t.awayFixtures == old(t.awayFixtures)
      && (f.hometeam != null ==> f.hometeam.homeFixtures == old(f.hometeam.homeFixtures))
    ensures !Contains(old(t.awayFixtures), f) ==> t.awayFixtures == old(t.awayFixtures) + [f]
    ensures !Contains(old(t.awayFixtures), f) && f.hometeam != null ==>
      f.hometeam.homeFixtures == old(f.hometeam.homeFixtures)
        + (if Contains(old(f.hometeam.homeFixtures), f) then [] else [f])
    ensures f.hometeam != t ==> t.homeFixtures == old(t.homeFixtures)
    ensures f.hometeam != null && f.hometeam != t ==>
      f.hometeam.awayFixtures == old(f.hometeam.awayFixtures)
  {
    t.AddAwayFixture(f);
    t.AddAwayFixture(f);
  }
}
