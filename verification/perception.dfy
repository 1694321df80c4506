/** Perception: the search for the nearest hiding spot the target cannot see.
    Line-of-sight (a physics raycast) and distances come from the engine, so
    each candidate spot arrives with its distance from the agent and whether
    it is hidden from the target this tick. */
module Perception {
  import opened Combat

  /** One candidate hiding spot as the agent perceives it this tick. */
  datatype SpotView = SpotView(distance: real, hidden: bool)

  predicate NoneHidden(spots: seq<SpotView>)
  {
    forall j :: 0 <= j < |spots| ==> !spots[j].hidden
  }

  /** Spot `k` is hidden, no hidden spot is nearer, and every later hidden
      spot is strictly farther (ties go to the later spot). */
  predicate IsClosestHidden(spots: seq<SpotView>, k: nat)
  {
    && k < |spots|
    && spots[k].hidden
    && (forall j :: 0 <= j < |spots| && spots[j].hidden ==> spots[k].distance <= spots[j].distance)
    && (forall j :: k < j < |spots| && spots[j].hidden ==> spots[k].distance < spots[j].distance)
  }

  /** The spot the search settles on after visiting `spots` in order: the
      last spot visited replaces the choice so far when it is hidden and at
      least as near. */
  function ClosestHidden(spots: seq<SpotView>): (r: Option<nat>)
    ensures r.Some? ==> r.value < |spots| && spots[r.value].hidden
    decreases |spots|
  {
    if spots == [] then None
    else
      var i := |spots| - 1;
      var sofar := ClosestHidden(spots[..i]);
      if !spots[i].hidden then sofar
      else if sofar.None? then Some(i)
      else if spots[sofar.value].distance >= spots[i].distance then Some(i)
      else sofar
  }

  /** The choice is absent exactly when no spot is hidden, and otherwise it
      is the nearest hidden spot, the later one on a tie. */
  lemma {:induction false} ClosestHiddenIsNearest(spots: seq<SpotView>)
    ensures ClosestHidden(spots).None? <==> NoneHidden(spots)
    ensures ClosestHidden(spots).Some? ==> IsClosestHidden(spots, ClosestHidden(spots).value)
    decreases |spots|
  {
    if spots != [] {
      var i := |spots| - 1;
      var prefix := spots[..i];
      ClosestHiddenIsNearest(prefix);
      assert forall j :: 0 <= j < i ==> prefix[j] == spots[j];
    }
  }

  /** The incumbent search over the spots in iteration order: a hidden spot
      replaces the incumbent when it is at least as near. */
  method FindClosestHiddenSpot(spots: seq<SpotView>) returns (closest: Option<nat>)
    ensures closest == ClosestHidden(spots)
  {
    closest := None;
    for i := 0 to |spots|
      invariant closest == ClosestHidden(spots[..i])
    {
      assert spots[..i + 1][..i] == spots[..i];
      if spots[i].hidden {
        if closest == None {
          closest := Some(i);
        }
        if spots[closest.value].distance >= spots[i].distance {
          closest := Some(i);
        }
      }
    }
    assert spots[..|spots|] == spots;
  }

  /** Where a hiding agent heads: the chosen spot, or where it was already
      heading when no spot is hidden. */
  function CoverDestination(spots: seq<SpotView>, current: Destination): Destination
  {
    match ClosestHidden(spots)
    case Some(k) => Spot(k)
    case None => current
  }

  /** At most one spot satisfies the search's contract. */
  lemma ClosestHiddenIsUnique(spots: seq<SpotView>, k1: nat, k2: nat)
    requires IsClosestHidden(spots, k1) && IsClosestHidden(spots, k2)
    ensures k1 == k2
  {
  }

  /** A spot that is the only one hidden from the target is the one chosen,
      wherever it stands in the iteration order. */
  lemma OnlyHiddenSpotIsChosen(spots: seq<SpotView>, s: nat)
    requires s < |spots| && spots[s].hidden
    requires forall j :: 0 <= j < |spots| && j != s ==> !spots[j].hidden
    ensures ClosestHidden(spots) == Some(s)
  {
    ClosestHiddenIsNearest(spots);
  }
}
