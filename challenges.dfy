/**
 * The challenges page: the list of challenges the user can join, leave and
 * advance, the toast line, and the active count shown in the header.
 */
module Challenges {

  datatype Period = Daily | Weekly | Monthly
  datatype Difficulty = Easy | Medium | Hard

  datatype Challenge = Challenge(
    id: string,
    title: string,
    description: string,
    period: Period,
    target: int,
    current: int,
    unit: string,
    color: string,
    points: int,
    isActive: bool,
    startDate: string,
    endDate: string,
    participants: int,
    difficulty: Difficulty)

  /** `handleJoinChallenge`'s patch: active, one more participant. */
  function Joined(challenges: seq<Challenge>, id: string): (r: seq<Challenge>)
    ensures |r| == |challenges|
    ensures forall i :: 0 <= i < |r| && challenges[i].id != id ==> r[i] == challenges[i]
    ensures forall i :: 0 <= i < |r| && challenges[i].id == id ==>
      r[i] == challenges[i].(isActive := true, participants := challenges[i].participants + 1)
  {
    seq(|challenges|, i requires 0 <= i < |challenges| =>
      if challenges[i].id == id
      then challenges[i].(isActive := true, participants := challenges[i].participants + 1)
      else challenges[i])
  }

  /** `handleLeaveChallenge`'s patch: inactive, one participant fewer but never below zero. */
  function Left(challenges: seq<Challenge>, id: string): (r: seq<Challenge>)
    ensures |r| == |challenges|
    ensures forall i :: 0 <= i < |r| && challenges[i].id != id ==> r[i] == challenges[i]
    ensures forall i :: 0 <= i < |r| && challenges[i].id == id ==>
      !r[i].isActive && r[i].participants >= 0 &&
      (challenges[i].participants >= 1 ==> r[i].participants == challenges[i].participants - 1) &&
      (challenges[i].participants < 1 ==> r[i].participants == 0)
    ensures forall i :: 0 <= i < |r| ==>
      r[i] == challenges[i].(isActive := r[i].isActive, participants := r[i].participants)
  {
    seq(|challenges|, i requires 0 <= i < |challenges| =>
      if challenges[i].id == id
      then challenges[i].(isActive := false, participants := Max(0, challenges[i].participants - 1))
      else challenges[i])
  }

  function Max(a: int, b: int): int
  {
    if a >= b then a else b
  }

  /** `handleUpdateProgress`'s patch: `current` becomes `min(target, newProgress)`. */
  function Progressed(challenges: seq<Challenge>, id: string, newProgress: int): (r: seq<Challenge>)
    ensures |r| == |challenges|
    ensures forall i :: 0 <= i < |r| && challenges[i].id != id ==> r[i] == challenges[i]
    ensures forall i :: 0 <= i < |r| && challenges[i].id == id ==>
      r[i].current <= r[i].target &&
      r[i] == challenges[i].(current := Min(challenges[i].target, newProgress))
  {
    seq(|challenges|, i requires 0 <= i < |challenges| =>
      if challenges[i].id == id
      then challenges[i].(current := Min(challenges[i].target, newProgress))
      else challenges[i])
  }

  /** `Math.min` on integers: the smaller of the two. */
  function Min(a: int, b: int): (m: int)
    ensures m <= a && m <= b && (m == a || m == b)
  {
    if a <= b then a else b
  }

  /** Joining twice is not the same as joining once: the count goes up by two. */
  lemma JoinTwice(challenges: seq<Challenge>, id: string, i: nat)
    requires i < |challenges| && challenges[i].id == id
    ensures Joined(Joined(challenges, id), id)[i].participants == challenges[i].participants + 2
    ensures Joined(challenges, id) != Joined(Joined(challenges, id), id)
  {
    assert Joined(challenges, id)[i] != Joined(Joined(challenges, id), id)[i];
  }

  /** Updating progress with the same value twice changes nothing the second time. */
  lemma ProgressIdempotent(challenges: seq<Challenge>, id: string, newProgress: int)
    ensures Progressed(Progressed(challenges, id, newProgress), id, newProgress) ==
            Progressed(challenges, id, newProgress)
  {
  }

  /** Every challenge keeps its progress at or below its target. */
  predicate ProgressBounded(challenges: seq<Challenge>)
  {
    forall i :: 0 <= i < |challenges| ==> challenges[i].current <= challenges[i].target
  }

  /** Every challenge has a non-negative participant count. */
  predicate ParticipantsNonNegative(challenges: seq<Challenge>)
  {
    forall i :: 0 <= i < |challenges| ==> challenges[i].participants >= 0
  }

  /** All three handlers keep both bounds, and keep every challenge's id in place. */
  lemma HandlersKeepBounds(challenges: seq<Challenge>, id: string, newProgress: int)
    requires ProgressBounded(challenges) && ParticipantsNonNegative(challenges)
    ensures ProgressBounded(Joined(challenges, id)) && ParticipantsNonNegative(Joined(challenges, id))
    ensures ProgressBounded(Left(challenges, id)) && ParticipantsNonNegative(Left(challenges, id))
    ensures ProgressBounded(Progressed(challenges, id, newProgress)) &&
            ParticipantsNonNegative(Progressed(challenges, id, newProgress))
    ensures forall i :: 0 <= i < |challenges| ==>
      Joined(challenges, id)[i].id == Left(challenges, id)[i].id ==
      Progressed(challenges, id, newProgress)[i].id == challenges[i].id
  {
  }

  /** `challenges.filter(c => c.isActive).length`, the count the header shows. */
  function ActiveCount(challenges: seq<Challenge>): (n: nat)
    ensures n <= |challenges|
  {
    if challenges == [] then 0
    else (if challenges[0].isActive then 1 else 0) + ActiveCount(challenges[1..])
  }

  /** How many challenges carry the id and are in the given active state. */
  function CountWithId(challenges: seq<Challenge>, id: string, active: bool): nat
  {
    if challenges == [] then 0
    else
      var here := if challenges[0].id == id && challenges[0].isActive == active then 1 else 0;
      here + CountWithId(challenges[1..], id, active)
  }

  /** Joining adds to the active count exactly the challenges with that id that were inactive. */
  lemma {:induction false} ActiveCountAfterJoin(challenges: seq<Challenge>, id: string)
    ensures ActiveCount(Joined(challenges, id)) == ActiveCount(challenges) + CountWithId(challenges, id, false)
  {
    if challenges != [] {
      ActiveCountAfterJoin(challenges[1..], id);
      assert Joined(challenges, id)[1..] == Joined(challenges[1..], id);
    }
  }

  /** Leaving removes from the active count exactly the challenges with that id that were active. */
  lemma {:induction false} ActiveCountAfterLeave(challenges: seq<Challenge>, id: string)
    ensures ActiveCount(Left(challenges, id)) + CountWithId(challenges, id, true) == ActiveCount(challenges)
  {
    if challenges != [] {
      ActiveCountAfterLeave(challenges[1..], id);
      assert Left(challenges, id)[1..] == Left(challenges[1..], id);
    }
  }

  class ChallengesPage {
    var challenges: seq<Challenge>
    var userPoints: int
    var toast: string

    /** The page as it mounts: the seed challenges, 1250 points, no toast. */
    constructor (challenges: seq<Challenge>)
      ensures this.challenges == challenges && userPoints == 1250 && toast == ""
    {
      this.challenges := challenges;
      userPoints := 1250;
      toast := "";
    }

    /** The number the header shows next to "Active". */
    function Active(): nat
      reads this
    {
      ActiveCount(challenges)
    }

    /** `handleJoinChallenge`. */
    method JoinChallenge(id: string)
      modifies this
      ensures challenges == Joined(old(challenges), id)
      ensures Active() == old(Active()) + CountWithId(old(challenges), id, false)
      ensures userPoints == old(userPoints) && toast == "Challenge joined successfully!"
    {
      ActiveCountAfterJoin(challenges, id);
      challenges := Joined(challenges, id);
      toast := "Challenge joined successfully!";
    }

    /** `handleLeaveChallenge`. */
    method LeaveChallenge(id: string)
      modifies this
      ensures challenges == Left(old(challenges), id)
      ensures Active() + CountWithId(old(challenges), id, true) == old(Active())
      ensures userPoints == old(userPoints) && toast == "Challenge left successfully!"
    {
      ActiveCountAfterLeave(challenges, id);
      challenges := Left(challenges, id);
      toast := "Challenge left successfully!";
    }

    /** `handleUpdateProgress`; the toast is left alone. */
    method UpdateProgress(id: string, newProgress: int)
      modifies this
      ensures challenges == Progressed(old(challenges), id, newProgress)
      ensures ProgressBounded(old(challenges)) ==> ProgressBounded(challenges)
      ensures userPoints == old(userPoints) && toast == old(toast)
    {
      challenges := Progressed(challenges, id, newProgress);
    }

    /** The toast's timer firing: the message is cleared. */
    method ClearToast()
      modifies this`toast
      ensures toast == ""
    {
      toast := "";
    }
  }
}
