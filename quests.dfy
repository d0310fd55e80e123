/** Quest progress: capped advance by type, claim-once, and the administrative reset. */
module Quests {

  datatype QuestType = Clicks | ClanPoints | Chat | Lab

  datatype Quest = Quest(id: string, desc: string, target: int, current: int, reward: int,
                         qtype: QuestType, claimed: bool)

  /** The quest set a fresh (or unreadable) save starts from. */
  const DefaultQuests: seq<Quest> := [
    Quest("q1", "Click Grinder: 500 Clicks", 500, 0, 1000, Clicks, false),
    Quest("q2", "Clan Contributor: 10 Clan Points", 10, 0, 2000, ClanPoints, false),
    Quest("q3", "Socialite: 15 Messages", 15, 0, 500, Chat, false),
    Quest("q4", "Researcher: Use 5 Lab Boosts", 5, 0, 3000, Lab, false)
  ]

  function Min(a: int, b: int): int { if a <= b then a else b }

  ghost predicate InRange(q: Quest) { 0 <= q.current <= q.target }

  ghost predicate AllInRange(qs: seq<Quest>) { forall i :: 0 <= i < |qs| ==> InRange(qs[i]) }

  /** The per-quest step of `updateQuest`. */
  function Advance(q: Quest, t: QuestType, amt: int): (r: Quest)
    ensures r.(current := q.current) == q
    ensures q.claimed || q.qtype != t ==> r == q
    ensures r.current <= q.target || r.current == q.current
    ensures InRange(q) && amt >= 0 ==> InRange(r) && q.current <= r.current
  {
    if q.qtype == t && !q.claimed then q.(current := Min(q.target, q.current + amt)) else q
  }

  /** `updateQuest(type, amt)`: only unclaimed quests of `t` move; their progress is capped at the target;
      for a non-negative amount progress never goes down and stays within range. */
  function UpdateQuest(qs: seq<Quest>, t: QuestType, amt: int): (r: seq<Quest>)
    ensures |r| == |qs|
    ensures forall i :: 0 <= i < |qs| ==> r[i].(current := qs[i].current) == qs[i]
    ensures forall i :: 0 <= i < |qs| && (qs[i].qtype != t || qs[i].claimed) ==> r[i] == qs[i]
    ensures forall i :: 0 <= i < |qs| && qs[i].qtype == t && !qs[i].claimed ==>
              r[i].current == Min(qs[i].target, qs[i].current + amt)
    ensures amt >= 0 ==> forall i :: 0 <= i < |qs| && InRange(qs[i]) ==>
              qs[i].current <= r[i].current && InRange(r[i])
  {
    seq(|qs|, i requires 0 <= i < |qs| => Advance(qs[i], t, amt))
  }

  /** Enough progress completes the quest: an unclaimed in-range quest of type `t` reaches its target
      exactly when the advance covers the remaining distance. */
  lemma AdvanceCompletes(qs: seq<Quest>, t: QuestType, amt: int, i: nat)
    requires i < |qs| && InRange(qs[i]) && qs[i].qtype == t && !qs[i].claimed
    ensures UpdateQuest(qs, t, amt)[i].current >= qs[i].target <==> qs[i].current + amt >= qs[i].target
  {
  }

  /** The claim button is offered only for an unclaimed, completed quest. */
  predicate Claimable(q: Quest): (b: bool)
    ensures b ==> !q.claimed
    ensures b && InRange(q) ==> q.current == q.target
  {
    !q.claimed && q.current >= q.target
  }

  /** `quests.map(x => x.id === id ? {...x, claimed: true} : x)`. */
  function MarkClaimed(qs: seq<Quest>, id: string): (r: seq<Quest>)
    ensures |r| == |qs|
    ensures forall i :: 0 <= i < |qs| && qs[i].id == id ==> !Claimable(r[i])
    ensures forall i :: 0 <= i < |qs| ==> r[i].(claimed := qs[i].claimed) == qs[i]
    ensures forall i :: 0 <= i < |qs| && qs[i].claimed ==> r[i].claimed
    ensures AllInRange(qs) ==> AllInRange(r)
    ensures forall i :: 0 <= i < |qs| ==> r[i] == if qs[i].id == id then qs[i].(claimed := true) else qs[i]
  {
    seq(|qs|, i requires 0 <= i < |qs| => if qs[i].id == id then qs[i].(claimed := true) else qs[i])
  }

  /** After a claim the quest is no longer claimable, and no later advance moves it. */
  lemma ClaimIsFinal(qs: seq<Quest>, i: nat, t: QuestType, amt: int)
    requires i < |qs| && Claimable(qs[i])
    ensures !Claimable(MarkClaimed(qs, qs[i].id)[i])
    ensures UpdateQuest(MarkClaimed(qs, qs[i].id), t, amt)[i] == MarkClaimed(qs, qs[i].id)[i]
  {
  }

  /** The admin `reset_tasks`: every quest back to zero progress and unclaimed, nothing else touched. */
  function ResetAll(qs: seq<Quest>): (r: seq<Quest>)
    ensures |r| == |qs|
    ensures forall i :: 0 <= i < |qs| ==> r[i].(current := qs[i].current, claimed := qs[i].claimed) == qs[i]
    ensures forall i :: 0 <= i < |qs| ==> !r[i].claimed && (Claimable(r[i]) <==> r[i].target <= 0)
    ensures (forall i :: 0 <= i < |qs| ==> qs[i].target >= 0) ==> AllInRange(r)
    ensures forall i :: 0 <= i < |qs| ==> r[i] == qs[i].(current := 0, claimed := false)
  {
    seq(|qs|, i requires 0 <= i < |qs| => qs[i].(current := 0, claimed := false))
  }

  /** A reset keeps every quest in range provided targets are non-negative. */
  lemma ResetKeepsRange(qs: seq<Quest>)
    requires forall i :: 0 <= i < |qs| ==> qs[i].target >= 0
    ensures AllInRange(ResetAll(qs))
  {
  }
}
