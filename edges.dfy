/** Presence edge detection: did the member start or stop playing the tracked game? */
module Edges {
  import opened Gateway

  const APEX_GAME := "Apex Legends"

  /** An activity counts only when it is of kind Playing and its name is exactly the game's. */
  predicate IsApex(act: Activity)
  {
    act.kind == Playing && act.name == APEX_GAME
  }

  predicate HasApex(acts: seq<Activity>)
  {
    exists i :: 0 <= i < |acts| && IsApex(acts[i])
  }

  /** The start edge: the game is absent from the old list and present in the new one. */
  predicate ApexStarted(oldActs: seq<Activity>, newActs: seq<Activity>)
  {
    !HasApex(oldActs) && HasApex(newActs)
  }

  /** The stop edge: the game is present in the old list and absent from the new one. */
  predicate ApexStopped(oldActs: seq<Activity>, newActs: seq<Activity>)
  {
    HasApex(oldActs) && !HasApex(newActs)
  }

  /** Scans the old list (any match answers false at once), then the new list. */
  method IsApexStart(oldActs: seq<Activity>, newActs: seq<Activity>) returns (started: bool)
    ensures started <==> ApexStarted(oldActs, newActs)
  {
    for i := 0 to |oldActs|
      invariant forall k :: 0 <= k < i ==> !IsApex(oldActs[k])
    {
      if IsApex(oldActs[i]) {
        return false;
      }
    }
    for i := 0 to |newActs|
      invariant forall k :: 0 <= k < i ==> !IsApex(newActs[k])
    {
      if IsApex(newActs[i]) {
        return true;
      }
    }
    return false;
  }

  /** Sets `apexed` on the first match in the old list, then requires no match in the new list. */
  method IsApexStop(oldActs: seq<Activity>, newActs: seq<Activity>) returns (stopped: bool)
    ensures stopped <==> ApexStopped(oldActs, newActs)
  {
    var apexed := false;
    var i := 0;
    while i < |oldActs|
      invariant 0 <= i <= |oldActs|
      invariant !apexed
      invariant forall k :: 0 <= k < i ==> !IsApex(oldActs[k])
    {
      if IsApex(oldActs[i]) {
        apexed := true;
        break;
      }
      i := i + 1;
    }
    if !apexed {
      return false;
    }
    for j := 0 to |newActs|
      invariant forall k :: 0 <= k < j ==> !IsApex(newActs[k])
    {
      if IsApex(newActs[j]) {
        return false;
      }
    }
    return true;
  }

  /**
   * The two edges never fire together, and neither fires when the game is in both lists
   * or in neither: an edge fires exactly when the lists disagree about the game.
   */
  lemma EdgeCases(oldActs: seq<Activity>, newActs: seq<Activity>)
    ensures !(ApexStarted(oldActs, newActs) && ApexStopped(oldActs, newActs))
    ensures HasApex(oldActs) == HasApex(newActs) ==> !ApexStarted(oldActs, newActs) && !ApexStopped(oldActs, newActs)
    ensures ApexStarted(oldActs, newActs) || ApexStopped(oldActs, newActs) <==> HasApex(oldActs) != HasApex(newActs)
  {
  }
}
