/** The six ability scores of a character, as the builder keeps them in its `stats`
    record (keys str, dex, con, int, wis, cha, in that order). The fields are named after
    the database columns they are stored in, because `int` is a Dafny keyword. */
module Abilities {

  datatype Ability = Str | Dex | Con | Int | Wis | Cha {

    /** The key of this ability in the `stats` record. */
    function Key(): (k: string)
      ensures |k| == 3
    {
      match this
      case Str => "str"
      case Dex => "dex"
      case Con => "con"
      case Int => "int"
      case Wis => "wis"
      case Cha => "cha"
    }
  }

  /** The abilities in the record's key order, which is the order of `Object.values`. */
  const AllAbilities: seq<Ability> := [Str, Dex, Con, Int, Wis, Cha]

  datatype Stats = Stats(strength: int, dexterity: int, constitution: int,
                         intelligence: int, wisdom: int, charisma: int)
  {
    function Get(a: Ability): int
    {
      match a
      case Str => strength
      case Dex => dexterity
      case Con => constitution
      case Int => intelligence
      case Wis => wisdom
      case Cha => charisma
    }

    /** `{ ...stats, [a]: v }`: the record with one score replaced. */
    function With(a: Ability, v: int): (s: Stats)
      ensures s.Get(a) == v
      ensures forall b :: b != a ==> s.Get(b) == Get(b)
    {
      match a
      case Str => this.(strength := v)
      case Dex => this.(dexterity := v)
      case Con => this.(constitution := v)
      case Int => this.(intelligence := v)
      case Wis => this.(wisdom := v)
      case Cha => this.(charisma := v)
    }

    /** `Object.values(stats)`. */
    function Values(): (vs: seq<int>)
      ensures |vs| == |AllAbilities|
      ensures forall i :: 0 <= i < |vs| ==> vs[i] == Get(AllAbilities[i])
    {
      [strength, dexterity, constitution, intelligence, wisdom, charisma]
    }
  }

  /** The record with every score equal to `v`. */
  function Uniform(v: int): (s: Stats)
    ensures forall a :: s.Get(a) == v
  {
    Stats(v, v, v, v, v, v)
  }
}
