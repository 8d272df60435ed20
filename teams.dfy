/**
 * Teams and pots as the draw pages receive them. A team is an object that
 * the fetch-and-parse step creates once; every later list refers to the same
 * objects, so teams are compared by identity, which is what a Dafny class
 * reference gives.
 */
module Teams {

  class Team {
    const id: string
    const name: string
    const country: string

    constructor (id: string, name: string, country: string)
      ensures this.id == id && this.name == name && this.country == country
    {
      this.id := id;
      this.name := name;
      this.country := country;
    }
  }

  /** A pot: teams in seeding order. */
  type Pot = seq<Team>

  /** A pot set: pots in pot-number order (pot 0 first). */
  type PotSet = seq<Pot>

  /** Number of teams in all pots together. */
  function TeamCount(pots: PotSet): nat
  {
    if pots == [] then 0 else TeamCount(pots[..|pots| - 1]) + |pots[|pots| - 1]|
  }
}
