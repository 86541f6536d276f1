/** The derived display values of components/LawnStats.tsx: the two-slice
    health gauge and the badge unlock flags. Both are pure functions of the
    history length and the health score; nothing here is stored. */
module LawnStats {
  import opened Constants

  datatype GaugeEntry = GaugeEntry(name: string, value: int)

  /** The gauge's data: the score slice and the slice that fills it up to 100. */
  function GaugeData(score: int): (data: seq<GaugeEntry>)
    ensures |data| == 2
    ensures data[0].name == "Score" && data[1].name == "Remaining"
    ensures data[0].value == score
    ensures data[0].value + data[1].value == 100
    ensures score <= 100 ==> data[1].value >= 0
    ensures 0 <= score ==> data[1].value <= 100
  {
    [GaugeEntry("Score", score), GaugeEntry("Remaining", 100 - score)]
  }

  /** The unlock test applied to each badge: it asks for the badge's id, so a
      badge whose id has no clause is never unlocked. */
  function IsUnlocked(badgeId: string, historyLength: int, score: int): (unlocked: bool)
    ensures unlocked ==> badgeId == "first_step" || badgeId == "green_thumb" || badgeId == "consistency_king"
  {
    (badgeId == "first_step" && historyLength > 0) ||
    (badgeId == "green_thumb" && score >= 90) ||
    (badgeId == "consistency_king" && historyLength >= 3)
  }

  /** One flag per badge, in the badges' own order (the `.map` of the render). */
  function BadgeFlags(badges: seq<Badge>, historyLength: int, score: int): (flags: seq<bool>)
    ensures |flags| == |badges|
    ensures forall i :: 0 <= i < |badges| ==> flags[i] == IsUnlocked(badges[i].id, historyLength, score)
  {
    if badges == [] then []
    else [IsUnlocked(badges[0].id, historyLength, score)] + BadgeFlags(badges[1..], historyLength, score)
  }

  /** The flags the component computes for the badge list of the constants. */
  function UnlockFlags(historyLength: int, score: int): (flags: seq<bool>)
    ensures |flags| == |Badges|
  {
    BadgeFlags(Badges, historyLength, score)
  }

  /** The four flags, badge by badge: first_step, green_thumb, eco_warrior,
      consistency_king. */
  lemma UnlockFlagsAre(historyLength: int, score: int)
    ensures UnlockFlags(historyLength, score) == [historyLength > 0, score >= 90, false, historyLength >= 3]
  {
  }

  lemma FirstStepUnlockedIff(historyLength: int, score: int)
    ensures IsUnlocked("first_step", historyLength, score) <==> historyLength > 0
    ensures !IsUnlocked("first_step", 0, score) && IsUnlocked("first_step", 1, score)
  {
  }

  lemma GreenThumbUnlockedIff(historyLength: int, score: int)
    ensures IsUnlocked("green_thumb", historyLength, score) <==> score >= 90
    ensures !IsUnlocked("green_thumb", historyLength, 89) && IsUnlocked("green_thumb", historyLength, 90)
  {
  }

  lemma ConsistencyKingUnlockedIff(historyLength: int, score: int)
    ensures IsUnlocked("consistency_king", historyLength, score) <==> historyLength >= 3
    ensures !IsUnlocked("consistency_king", 2, score) && IsUnlocked("consistency_king", 3, score)
  {
  }

  /** No clause names eco_warrior, so it stays locked whatever the inputs. */
  lemma EcoWarriorNeverUnlocked(historyLength: int, score: int)
    ensures !IsUnlocked("eco_warrior", historyLength, score)
  {
  }

  lemma ConsistencyKingImpliesFirstStep(historyLength: int, score: int)
    ensures IsUnlocked("consistency_king", historyLength, score) ==> IsUnlocked("first_step", historyLength, score)
  {
  }
}
