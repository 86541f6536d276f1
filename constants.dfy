/** The constants of constants.ts: the profile a fresh installation starts
    with and the list of achievement badges. */
module Constants {
  import opened Wrappers
  import opened Types

  const DefaultProfile: UserProfile :=
    UserProfile(None, CoolSeason, Loam, None, Healthy)

  datatype Badge = Badge(id: string, name: string, description: string, icon: string)

  const Badges: seq<Badge> := [
    Badge("first_step", "First Step", "Log your first fertilizer application", "\U{1F331}"),
    Badge("green_thumb", "Green Thumb", "Maintain a 90+ health score", "\U{1F44D}"),
    Badge("eco_warrior", "Eco Warrior", "Apply sustainable lawn practices", "\U{1F30D}"),
    Badge("consistency_king", "Consistency King", "Apply 3 times on schedule", "\U{1F451}")
  ]

  /** There are four badges and no two share an id. */
  lemma BadgeIdsDistinct()
    ensures |Badges| == 4
    ensures forall i, j :: 0 <= i < j < |Badges| ==> Badges[i].id != Badges[j].id
  {
  }
}
