/**
 * The per-pot view that the pots container renders: for every original
 * pot, its number, whether it is the pot being drawn from, which of its
 * teams have already been picked, and whether it is depleted.
 */
module PotsContainer {
  import opened Wrappers
  import opened Teams
  import opened Lodash

  /** The props handed to one rendered pot. `key` is the React key. */
  datatype PotView = PotView(
    key: string,
    potNum: nat,
    isCurrent: bool,
    teams: Pot,
    pickedTeams: Pot,
    selectedTeams: Option<Pot>,
    depleted: bool)

  /** Every original pot has a first team, whose id keys the rendered pot. */
  predicate NoEmptyPot(initialPots: PotSet)
  {
    forall i :: 0 <= i < |initialPots| ==> |initialPots[i]| > 0
  }

  /** `pots[i]`; past the end it reads `undefined`, which `difference` skips. */
  function RemainingAt(pots: PotSet, i: nat): Pot
  {
    if i < |pots| then pots[i] else []
  }

  /** `selectedTeams || []` */
  function SelectionOrEmpty(selectedTeams: Option<Pot>): Pot
  {
    match selectedTeams
    case None => []
    case Some(teams) => teams
  }

  /** `difference(initialPots[i], pots[i], selectedTeams || [])` */
  function PickedTeams(initialPots: PotSet, pots: PotSet, selectedTeams: Option<Pot>, i: nat): (picked: Pot)
    requires i < |initialPots|
    ensures |picked| <= |initialPots[i]|
    ensures forall t :: t in picked ==>
      t in initialPots[i] && t !in RemainingAt(pots, i) && t !in SelectionOrEmpty(selectedTeams)
    ensures forall t :: t in initialPots[i] && t !in RemainingAt(pots, i) && t !in SelectionOrEmpty(selectedTeams) ==>
      t in picked
  {
    Difference(initialPots[i], RemainingAt(pots, i) + SelectionOrEmpty(selectedTeams))
  }

  function ViewOfPot(initialPots: PotSet, pots: PotSet, selectedTeams: Option<Pot>, currentPotNum: int, i: nat): PotView
    requires i < |initialPots| && |initialPots[i]| > 0
  {
    var pot := initialPots[i];
    var picked := PickedTeams(initialPots, pots, selectedTeams, i);
    PotView(pot[0].id, i, i == currentPotNum, pot, picked, selectedTeams, |picked| == |pot|)
  }

  /** `PotsContainer.render`: one view per original pot, in pot order. */
  function Render(initialPots: PotSet, pots: PotSet, selectedTeams: Option<Pot>, currentPotNum: int): (r: seq<PotView>)
    requires NoEmptyPot(initialPots)
    ensures |r| == |initialPots|
    ensures forall i :: 0 <= i < |r| ==>
      r[i].potNum == i && r[i].teams == initialPots[i] && r[i].key == initialPots[i][0].id
      && r[i].selectedTeams == selectedTeams
    ensures forall i :: 0 <= i < |r| ==> (r[i].isCurrent <==> i == currentPotNum)
    ensures forall i :: 0 <= i < |r| ==> r[i].pickedTeams == PickedTeams(initialPots, pots, selectedTeams, i)
    ensures forall i :: 0 <= i < |r| ==> |r[i].pickedTeams| <= |r[i].teams|
    ensures forall i :: 0 <= i < |r| ==> (r[i].depleted <==> |r[i].pickedTeams| == |r[i].teams|)
  {
    seq(|initialPots|, i requires 0 <= i < |initialPots| => ViewOfPot(initialPots, pots, selectedTeams, currentPotNum, i))
  }

  /** At most one pot is the current one. */
  lemma AtMostOneCurrent(initialPots: PotSet, pots: PotSet, selectedTeams: Option<Pot>, currentPotNum: int, i: nat, j: nat)
    requires NoEmptyPot(initialPots)
    requires i < |initialPots| && j < |initialPots|
    ensures var r := Render(initialPots, pots, selectedTeams, currentPotNum);
      r[i].isCurrent && r[j].isCurrent ==> i == j
  {
  }

  /**
   * A team is picked from pot i exactly when it belongs to the original pot
   * and is neither still in the remaining pot nor in the current selection;
   * the picked teams keep their order in the original pot and their
   * multiplicity there.
   */
  lemma PickedTeamsCharacterised(initialPots: PotSet, pots: PotSet, selectedTeams: Option<Pot>, i: nat)
    requires i < |initialPots|
    ensures var picked := PickedTeams(initialPots, pots, selectedTeams, i);
      (forall t :: t in picked <==>
         t in initialPots[i] && t !in RemainingAt(pots, i) && t !in SelectionOrEmpty(selectedTeams))
      && IsSubsequence(picked, initialPots[i])
      && |picked| <= |initialPots[i]|
      && (forall t :: t in picked ==> multiset(picked)[t] == multiset(initialPots[i])[t])
  {
    DifferenceIsSubsequence(initialPots[i], RemainingAt(pots, i) + SelectionOrEmpty(selectedTeams));
  }

  /**
   * A pot is depleted exactly when every team of the original pot has been
   * picked: none is still in the remaining pot or in the current selection.
   */
  lemma DepletedIff(initialPots: PotSet, pots: PotSet, selectedTeams: Option<Pot>, currentPotNum: int, i: nat)
    requires NoEmptyPot(initialPots)
    requires i < |initialPots|
    ensures Render(initialPots, pots, selectedTeams, currentPotNum)[i].depleted <==>
      forall t :: t in initialPots[i] ==> t !in RemainingAt(pots, i) && t !in SelectionOrEmpty(selectedTeams)
  {
    var remaining, selection := RemainingAt(pots, i), SelectionOrEmpty(selectedTeams);
    var view := Render(initialPots, pots, selectedTeams, currentPotNum)[i];
    assert view.pickedTeams == Difference(initialPots[i], remaining + selection);
    DifferenceKeepsAllIff(initialPots[i], remaining + selection);
  }

  /** A null selection picks and depletes exactly as an empty one does. */
  lemma NullSelectionActsAsEmpty(initialPots: PotSet, pots: PotSet, currentPotNum: int)
    requires NoEmptyPot(initialPots)
    ensures var a := Render(initialPots, pots, None, currentPotNum);
      var b := Render(initialPots, pots, Some([]), currentPotNum);
      |a| == |b| &&
      forall i :: 0 <= i < |a| ==>
        a[i].pickedTeams == b[i].pickedTeams && a[i].depleted == b[i].depleted && a[i].isCurrent == b[i].isCurrent
  {
  }

  /**
   * A worked example: pots [[A, B], [C, D]] with B still in pot 0 and no
   * selection; then pot 0 has picked A and is not depleted, pot 1 has
   * picked nothing.
   */
  lemma TwoPotExample(a: Team, b: Team, c: Team, d: Team)
    requires a != b && a != c && a != d && b != c && b != d && c != d
    ensures var r := Render([[a, b], [c, d]], [[b], [c, d]], None, 0);
      r[0].pickedTeams == [a] && !r[0].depleted && r[0].isCurrent
      && r[1].pickedTeams == [] && !r[1].depleted && !r[1].isCurrent
  {
    assert [a, b][1..] == [b] && [b][1..] == [] && [c, d][1..] == [d] && [d][1..] == [];
    assert Difference([a, b], [b] + []) == [a];
    assert Difference([c, d], [c, d] + []) == [];
  }

  /** The same pots with pot 0 emptied: pot 0 has picked both teams and is depleted. */
  lemma EmptiedPotExample(a: Team, b: Team, c: Team, d: Team)
    requires a != b && a != c && a != d && b != c && b != d && c != d
    ensures var r := Render([[a, b], [c, d]], [[], [c, d]], None, 0);
      r[0].pickedTeams == [a, b] && r[0].depleted
  {
    assert [a, b][1..] == [b] && [b][1..] == [];
    assert Difference([a, b], [] + []) == [a, b];
  }
}
