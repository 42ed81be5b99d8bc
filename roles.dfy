/**
 * The progression and permission library: rank from XP, progress within a rank,
 * the 70% acceleration test, and the role-level permission table.
 * Everything here is a pure function over fixed constant tables.
 */
module Roles {

  // ---------------------------------------------------------------------------
  // Configuration constants
  // ---------------------------------------------------------------------------

  /** The library's daily XP limit (150). The message route uses its own cap. */
  const DailyXpLimit: int := 150

  /** The acceleration threshold 0.7, kept exact as a real. */
  const AccelerationThreshold: real := 0.7

  /** The highest rank. */
  const TopRank: int := 7

  /** An XP band `[min, max)` of one rank. */
  datatype Band = Band(min: int, max: int)

  /** RANK_XP_THRESHOLDS: entry `r - 1` is the band of rank `r`. */
  const RankXpThresholds: seq<Band> := [
    Band(0, 1000),
    Band(1000, 2500),
    Band(2500, 4000),
    Band(4000, 5500),
    Band(5500, 7000),
    Band(7000, 8500),
    Band(8500, 10000)
  ]

  /** The band of rank `rank`. */
  function Threshold(rank: int): (b: Band)
    requires 1 <= rank <= TopRank
    ensures b.min < b.max
    ensures rank < TopRank ==> b.max == RankXpThresholds[rank].min
  {
    RankXpThresholds[rank - 1]
  }

  // ---------------------------------------------------------------------------
  // Ranks
  // ---------------------------------------------------------------------------

  /** getRankFromXP: the if-chain over the band minima, highest first. */
  function GetRankFromXp(xp: int): (r: int)
    ensures 1 <= r <= TopRank
  {
    if xp >= 8500 then 7
    else if xp >= 7000 then 6
    else if xp >= 5500 then 5
    else if xp >= 4000 then 4
    else if xp >= 2500 then 3
    else if xp >= 1000 then 2
    else 1
  }

  /** The if-chain agrees with the table: rank `r` is returned exactly on its band,
      where rank 1 also takes every negative XP and rank 7 has no upper bound
      (the table's max of 10000 is never consulted). */
  lemma RankBand(xp: int, r: int)
    requires 1 <= r <= TopRank
    ensures GetRankFromXp(xp) == r <==>
              (r == 1 || Threshold(r).min <= xp) && (r == TopRank || xp < Threshold(r).max)
  {
  }

  /** The rank is the highest one whose band minimum has been reached. */
  lemma RankIsHighestReached(xp: int)
    requires xp >= 0
    ensures Threshold(GetRankFromXp(xp)).min <= xp
    ensures forall q :: GetRankFromXp(xp) < q <= TopRank ==> xp < Threshold(q).min
  {
  }

  /** More XP never gives a lower rank. */
  lemma RankMonotone(xp1: int, xp2: int)
    requires xp1 <= xp2
    ensures GetRankFromXp(xp1) <= GetRankFromXp(xp2)
  {
  }

  /** Boundary values of getRankFromXP. */
  lemma RankBoundaries()
    ensures GetRankFromXp(0) == 1 && GetRankFromXp(999) == 1
    ensures GetRankFromXp(1000) == 2 && GetRankFromXp(8499) == 6
    ensures GetRankFromXp(8500) == 7 && GetRankFromXp(10000) == 7
    ensures GetRankFromXp(1000000) == 7
  {
  }

  // ---------------------------------------------------------------------------
  // Progress and acceleration
  // ---------------------------------------------------------------------------

  /** The record getRankProgress returns; `progress` is a percentage. */
  datatype RankProgress = RankProgress(current: int, next: int, progress: real, xpToNext: int)

  function MinReal(a: real, b: real): real { if a <= b then a else b }

  function MaxInt(a: int, b: int): int { if a >= b then a else b }

  /** The fraction of the current band already covered, `(xp - min) / (max - min)`. */
  function BandFraction(xp: int, rank: int): real
    requires 1 <= rank <= TopRank
  {
    (xp - Threshold(rank).min) as real / (Threshold(rank).max - Threshold(rank).min) as real
  }

  /** getRankProgress. */
  function GetRankProgress(xp: int): (p: RankProgress)
    ensures p.current == GetRankFromXp(xp)
  {
    var currentRank := GetRankFromXp(xp);
    if currentRank >= TopRank then
      RankProgress(7, 7, 100.0, 0)
    else
      RankProgress(currentRank, currentRank + 1,
                   MinReal(BandFraction(xp, currentRank) * 100.0, 100.0),
                   MaxInt(0, Threshold(currentRank + 1).min - xp))
  }

  /** At the top rank progress is complete and nothing more is needed. */
  lemma ProgressAtTop(xp: int)
    requires xp >= 8500
    ensures GetRankProgress(xp) == RankProgress(7, 7, 100.0, 0)
  {
  }

  /** Below the top rank and for non-negative XP, the XP into the band
      (`xpInRank`) is non-negative and smaller than the band's width (`xpNeeded`). */
  lemma XpInRankBounds(xp: int)
    requires 0 <= xp && GetRankFromXp(xp) < TopRank
    ensures var b := Threshold(GetRankFromXp(xp));
            0 <= xp - b.min < b.max - b.min
  {
  }

  /** Below the top rank: the next rank is one higher, the XP still needed is the
      distance to the band's end (always positive), and the percentage is the exact
      share of the band covered, lying in `[0, 100)` for non-negative XP and zero
      exactly at the band's minimum. */
  lemma ProgressBelowTop(xp: int)
    requires xp < 8500
    ensures var p := GetRankProgress(xp);
            var b := Threshold(p.current);
            && p.current < TopRank
            && p.next == p.current + 1
            && p.xpToNext == b.max - xp == Threshold(p.next).min - xp
            && p.xpToNext > 0
            && p.progress * (b.max - b.min) as real == (xp - b.min) as real * 100.0
            && p.progress < 100.0
            && (xp >= 0 ==> 0.0 <= p.progress)
            && (p.progress == 0.0 <==> xp == b.min)
  {
  }

  /** canAccelerate: below the top rank, at least 70% of the current band is covered. */
  function CanAccelerate(xp: int): (r: bool)
    ensures r ==> GetRankFromXp(xp) < TopRank
  {
    var rank := GetRankFromXp(xp);
    if rank >= TopRank then false
    else BandFraction(xp, rank) >= AccelerationThreshold
  }

  /** canAccelerate in integer terms: `10 * (xp - min) >= 7 * (max - min)` below the top. */
  lemma CanAccelerateIff(xp: int)
    ensures var r := GetRankFromXp(xp);
            CanAccelerate(xp) <==>
              r < TopRank && 10 * (xp - Threshold(r).min) >= 7 * (Threshold(r).max - Threshold(r).min)
  {
  }

  /** Acceleration is exactly "progress at least 70" below the top rank. */
  lemma CanAccelerateMeansProgress(xp: int)
    ensures CanAccelerate(xp) <==> GetRankFromXp(xp) < TopRank && GetRankProgress(xp).progress >= 70.0
  {
  }

  /** Examples around the first band's 70% point and the top rank. */
  lemma CanAccelerateExamples()
    ensures !CanAccelerate(699) && CanAccelerate(700)
    ensures !CanAccelerate(2049) && CanAccelerate(2050)
    ensures !CanAccelerate(8500)
  {
  }

  // ---------------------------------------------------------------------------
  // Roles and permissions
  // ---------------------------------------------------------------------------

  /** ROLE_LEVELS: higher level, more permissions. */
  const RoleLevels: map<string, int> := map[
    "founder" := 10,
    "visionLead" := 9,
    "executiveBoard" := 8,
    "admin" := 7,
    "edukator" := 6,
    "professor" := 5,
    "moderator" := 4,
    "supportLead" := 3,
    "supportAgent" := 2,
    "user" := 1
  ]

  /** `ROLE_LEVELS[role] || 0`: an unknown role has level 0. */
  function RoleLevel(role: string): (level: int)
    ensures role in RoleLevels ==> 1 <= level <= 10
    ensures role !in RoleLevels ==> level == 0
  {
    if role in RoleLevels then RoleLevels[role] else 0
  }

  /** Each level from 1 to 10 belongs to exactly one listed role. */
  lemma RoleLevelsDistinct(role1: string, role2: string)
    requires role1 in RoleLevels && role2 in RoleLevels
    ensures RoleLevel(role1) == RoleLevel(role2) ==> role1 == role2
  {
  }

  lemma RoleLevelExamples()
    ensures RoleLevel("admin") == 7 && RoleLevel("founder") == 10 && RoleLevel("user") == 1
    ensures RoleLevel("unknown_role") == 0 && RoleLevel("") == 0
  {
  }

  /** hasRoleLevel. */
  function HasRoleLevel(role: string, requiredLevel: int): (r: bool)
    ensures role !in RoleLevels ==> (r <==> requiredLevel <= 0)
    ensures role in RoleLevels && requiredLevel <= 1 ==> r
  {
    RoleLevel(role) >= requiredLevel
  }

  /** canManageChannels: professor and above. */
  function CanManageChannels(role: string): (r: bool)
    ensures r ==> role in RoleLevels
  {
    RoleLevel(role) >= 5
  }

  /** canCreateOwnChannel: the professor role only. */
  function CanCreateOwnChannel(role: string): (r: bool)
    ensures r ==> RoleLevel(role) == 5
  {
    role == "professor"
  }

  /** canAccessAllChannels: edukator, or admin and above. */
  function CanAccessAllChannels(role: string): (r: bool)
    ensures r ==> role in RoleLevels
  {
    role == "edukator" || HasRoleLevel(role, 7)
  }

  /** canManageUsers: admin and above. */
  function CanManageUsers(role: string): (r: bool)
    ensures r ==> role in RoleLevels
  {
    HasRoleLevel(role, 7)
  }

  /** canManageCourses: edukator and above. */
  function CanManageCourses(role: string): (r: bool)
    ensures r ==> role in RoleLevels
  {
    HasRoleLevel(role, 6)
  }

  /** The record getPermissions returns. */
  datatype Permissions = Permissions(
    canManageChannels: bool,
    canCreateOwnChannel: bool,
    canAccessAllChannels: bool,
    canManageUsers: bool,
    canManageCourses: bool,
    roleLevel: int)

  /** getPermissions. */
  function GetPermissions(role: string): (p: Permissions)
    ensures p.roleLevel == RoleLevel(role)
  {
    Permissions(
      CanManageChannels(role),
      CanCreateOwnChannel(role),
      CanAccessAllChannels(role),
      CanManageUsers(role),
      CanManageCourses(role),
      RoleLevel(role))
  }

  /** The permissions form a ladder: managing users implies managing courses,
      which implies managing channels and accessing every channel. */
  lemma PermissionLadder(role: string)
    ensures CanManageUsers(role) ==> CanManageCourses(role)
    ensures CanManageCourses(role) ==> CanManageChannels(role)
    ensures CanManageCourses(role) ==> CanAccessAllChannels(role)
  {
  }

  /** Since the edukator is the only role at level 6, access to all channels is
      exactly the course-management level. */
  lemma AccessAllChannelsIsLevelSix(role: string)
    ensures CanAccessAllChannels(role) <==> RoleLevel(role) >= 6
  {
  }

  /** The professor can create a channel and manage channels but not courses;
      no other role can create its own channel. */
  lemma OwnChannelIsProfessorOnly(role: string)
    ensures CanCreateOwnChannel(role) <==> role == "professor"
    ensures CanCreateOwnChannel(role) ==>
              RoleLevel(role) == 5 && CanManageChannels(role) && !CanManageCourses(role)
  {
  }

  /** Every field of getPermissions, stated through the role's level alone
      (the own-channel field through the role name). */
  lemma PermissionsByLevel(role: string)
    ensures var p := GetPermissions(role);
            && p.roleLevel == RoleLevel(role)
            && (p.canManageChannels <==> p.roleLevel >= 5)
            && (p.canAccessAllChannels <==> p.roleLevel >= 6)
            && (p.canManageCourses <==> p.roleLevel >= 6)
            && (p.canManageUsers <==> p.roleLevel >= 7)
            && (p.canCreateOwnChannel <==> role == "professor")
  {
  }

  /** An unknown role gets no permission at all. */
  lemma UnknownRoleHasNothing(role: string)
    requires role !in RoleLevels
    ensures GetPermissions(role) == Permissions(false, false, false, false, false, 0)
  {
  }

  lemma PermissionExamples()
    ensures GetPermissions("admin").canManageUsers
    ensures !GetPermissions("user").canManageUsers
    ensures GetPermissions("edukator").canAccessAllChannels && !GetPermissions("edukator").canManageUsers
    ensures GetPermissions("professor").canCreateOwnChannel && GetPermissions("professor").canManageChannels
  {
  }
}
