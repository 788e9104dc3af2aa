/**
 * The values in the feature map `predict_match` assembles. The map is built
 * by successive writes, so a later write under the same name would replace an
 * earlier one; the feature names of different sides, roles and statistics are
 * pairwise different, so every team, player, champion, rating and average
 * feature keeps the value written for it.
 */
module FeatureValues {
  import opened Wrappers
  import opened Text
  import opened Predictor

  // ---------------------------------------------------------------------
  // The feature names are pairwise different
  // ---------------------------------------------------------------------

  lemma PrefixShape(c: Color, r: Role, x: string)
    ensures |Prefix(c, r)| == |ColorName(c)| + |RoleName(r)| + 2
    ensures StartsWith(Prefix(c, r) + x, Prefix(c, r))
    ensures (Prefix(c, r) + x)[0] == ColorName(c)[0]
    ensures (Prefix(c, r) + x)[|ColorName(c)| + 1] == RoleName(r)[0]
    ensures (Prefix(c, r) + x)[|Prefix(c, r)|..] == x
  {
    assert (Prefix(c, r) + x)[..|Prefix(c, r)|] == Prefix(c, r);
  }

  /** A feature name starts with the prefix of at most one side and role. */
  lemma PrefixOwner(k: string, c: Color, r: Role, c': Color, r': Role)
    requires StartsWith(k, Prefix(c, r)) && StartsWith(k, Prefix(c', r'))
    ensures c == c' && r == r'
  {
    PrefixShape(c, r, k[|Prefix(c, r)|..]);
    PrefixShape(c', r', k[|Prefix(c', r')|..]);
    assert k == Prefix(c, r) + k[|Prefix(c, r)|..];
    assert k == Prefix(c', r') + k[|Prefix(c', r')|..];
    assert ColorName(c)[0] == ColorName(c')[0];
    assert RoleName(r)[0] == RoleName(r')[0];
  }

  lemma StatNameInjective(s: Stat, s': Stat)
    requires StatName(s) == StatName(s')
    ensures s == s'
  {
  }

  lemma HistoryKeyInjective(c: Color, r: Role, s: Stat, s': Stat)
    requires HistoryKey(c, r, s) == HistoryKey(c, r, s')
    ensures s == s'
  {
    PrefixShape(c, r, "historical_avg_" + StatName(s));
    PrefixShape(c, r, "historical_avg_" + StatName(s'));
    assert ("historical_avg_" + StatName(s))[15..] == StatName(s);
    assert ("historical_avg_" + StatName(s'))[15..] == StatName(s');
    StatNameInjective(s, s');
  }

  /** Within one side and role, the player, the champion and each average have their own names. */
  lemma RoleNamesApart(c: Color, r: Role, s: Stat)
    ensures PlayerKey(c, r) != ChampionKey(c, r)
    ensures PlayerKey(c, r) != HistoryKey(c, r, s) && ChampionKey(c, r) != HistoryKey(c, r, s)
  {
    var n := |Prefix(c, r)|;
    PrefixShape(c, r, "player");
    PrefixShape(c, r, "champion");
    PrefixShape(c, r, "historical_avg_" + StatName(s));
    assert PlayerKey(c, r)[n] == 'p' && ChampionKey(c, r)[n] == 'c' && HistoryKey(c, r, s)[n] == 'h';
  }

  /** A team or rating feature starts with no side's and role's prefix. */
  lemma SideNamesUnprefixed(c: Color, c': Color, r: Role)
    ensures !StartsWith(TeamKey(c), Prefix(c', r))
    ensures !StartsWith(EloKey(c), Prefix(c', r))
  {
    var n := |ColorName(c)|;
    if c != c' {
      assert TeamKey(c)[0] != Prefix(c', r)[0] && EloKey(c)[0] != Prefix(c', r)[0];
    } else if r == Top {
      assert TeamKey(c)[n + 2] != Prefix(c', r)[n + 2];
      assert EloKey(c)[n + 1] != Prefix(c', r)[n + 1];
    } else {
      assert TeamKey(c)[n + 1] != Prefix(c', r)[n + 1];
      assert EloKey(c)[n + 1] != Prefix(c', r)[n + 1];
    }
  }

  lemma SideNamesApart(c: Color, c': Color)
    ensures TeamKey(c) != EloKey(c')
    ensures TeamKey(c) == TeamKey(c') ==> c == c'
    ensures EloKey(c) == EloKey(c') ==> c == c'
  {
    assert TeamKey(c)[|ColorName(c)| + 1] == 'T';
    assert EloKey(c')[|ColorName(c')| + 1] == 't';
  }

  lemma StatListed(s: Stat)
    ensures s in Stats
  {
    match s
    case Kills => assert Stats[0] == s;
    case Deaths => assert Stats[1] == s;
    case Assists => assert Stats[2] == s;
    case KillParticipation => assert Stats[3] == s;
    case DamageShare => assert Stats[4] == s;
    case GoldDiffAt15 => assert Stats[5] == s;
  }

  lemma {:induction false} HistoryKeysListed(c: Color, r: Role, stats: seq<Stat>, s: Stat)
    ensures HistoryKey(c, r, s) in HistoryKeys(c, r, stats) <==> s in stats
    decreases |stats|
  {
    if stats != [] {
      HistoryKeysListed(c, r, stats[1..], s);
      if HistoryKey(c, r, s) == HistoryKey(c, r, stats[0]) {
        HistoryKeyInjective(c, r, s, stats[0]);
      }
      assert stats == [stats[0]] + stats[1..];
    }
  }

  lemma {:induction false} HistoryKeysApart(c: Color, r: Role, stats: seq<Stat>)
    ensures PlayerKey(c, r) !in HistoryKeys(c, r, stats) && ChampionKey(c, r) !in HistoryKeys(c, r, stats)
    decreases |stats|
  {
    if stats != [] {
      RoleNamesApart(c, r, stats[0]);
      HistoryKeysApart(c, r, stats[1..]);
    }
  }

  lemma {:induction false} HistoryKeysPrefixed(c: Color, r: Role, stats: seq<Stat>, k: string)
    requires k in HistoryKeys(c, r, stats)
    ensures StartsWith(k, Prefix(c, r))
    decreases |stats|
  {
    if k == HistoryKey(c, r, stats[0]) {
      PrefixShape(c, r, "historical_avg_" + StatName(stats[0]));
    } else {
      HistoryKeysPrefixed(c, r, stats[1..], k);
    }
  }

  /** Every feature of a role of a side starts with that side's and role's prefix. */
  lemma RoleKeysPrefixed(c: Color, r: Role, k: string)
    requires k in RoleKeys(c, r)
    ensures StartsWith(k, Prefix(c, r))
  {
    if k == PlayerKey(c, r) {
      PrefixShape(c, r, "player");
    } else if k == ChampionKey(c, r) {
      PrefixShape(c, r, "champion");
    } else {
      HistoryKeysPrefixed(c, r, Stats, k);
    }
  }

  /** A name with none of the prefixes of `roles` on side `c` is none of their features. */
  lemma {:induction false} NotInRolesKeys(k: string, c: Color, roles: seq<Role>)
    requires forall r :: r in roles ==> !StartsWith(k, Prefix(c, r))
    ensures k !in RolesKeys(c, roles)
    decreases |roles|
  {
    if roles != [] {
      if k in RoleKeys(c, roles[0]) {
        RoleKeysPrefixed(c, roles[0], k);
      }
      NotInRolesKeys(k, c, roles[1..]);
    }
  }

  /** A feature of one role of one side is written by no other role's step. */
  lemma RoleKeyNotInRoles(k: string, c: Color, r: Role, c': Color, roles: seq<Role>)
    requires k in RoleKeys(c, r) && (c != c' || r !in roles)
    ensures k !in RolesKeys(c', roles)
  {
    RoleKeysPrefixed(c, r, k);
    forall r' | r' in roles
      ensures !StartsWith(k, Prefix(c', r'))
    {
      if StartsWith(k, Prefix(c', r')) {
        PrefixOwner(k, c, r, c', r');
      }
    }
    NotInRolesKeys(k, c', roles);
  }

  lemma {:induction false} RoleKeysListed(c: Color, r: Role, roles: seq<Role>)
    requires r in roles
    ensures RoleKeys(c, r) <= RolesKeys(c, roles)
    decreases |roles|
  {
    if roles[0] != r {
      RoleKeysListed(c, r, roles[1..]);
    }
  }

  // ---------------------------------------------------------------------
  // Each step writes only its own features
  // ---------------------------------------------------------------------

  /** The value of a feature, if the map has one. */
  function Lookup(m: map<string, real>, k: string): (v: Option<real>)
    ensures v.Some? <==> k in m
  {
    if k in m then Some(m[k]) else None
  }

  lemma {:induction false} WriteHistoryFrame(m: map<string, real>, c: Color, r: Role, hist: map<Stat, real>, stats: seq<Stat>, k: string)
    requires forall s :: s in stats ==> s in hist
    requires k !in HistoryKeys(c, r, stats)
    ensures Lookup(WriteHistory(m, c, r, hist, stats), k) == Lookup(m, k)
    decreases |stats|
  {
    if stats != [] {
      WriteHistoryFrame(m[HistoryKey(c, r, stats[0]) := hist[stats[0]]], c, r, hist, stats[1..], k);
    }
  }

  /** Each listed statistic's average ends up under its own feature name. */
  lemma {:induction false} WriteHistoryValue(m: map<string, real>, c: Color, r: Role, hist: map<Stat, real>, stats: seq<Stat>, s: Stat)
    requires forall s :: s in stats ==> s in hist
    requires s in stats
    ensures Lookup(WriteHistory(m, c, r, hist, stats), HistoryKey(c, r, s)) == Some(hist[s])
    decreases |stats|
  {
    var m' := m[HistoryKey(c, r, stats[0]) := hist[stats[0]]];
    if s in stats[1..] {
      WriteHistoryValue(m', c, r, hist, stats[1..], s);
    } else {
      HistoryKeysListed(c, r, stats[1..], s);
      WriteHistoryFrame(m', c, r, hist, stats[1..], HistoryKey(c, r, s));
    }
  }

  lemma RoleFeaturesFrame(p: LolPredictor, m: map<string, real>, c: Color, team: TeamInfo, role: Role, k: string)
    requires p.history.rows != [] && RoleFeatures(p, m, c, team, role).Success?
    requires k !in RoleKeys(c, role)
    ensures Lookup(RoleFeatures(p, m, c, team, role).value, k) == Lookup(m, k)
  {
    var playerCode := Transform(p.playerEncoders.Get(role), Lower(team.players.Get(role))).value;
    var championCode := Transform(p.championEncoders.Get(role), Lower(team.champions.Get(role))).value;
    var m1 := m[PlayerKey(c, role) := playerCode as real][ChampionKey(c, role) := championCode as real];
    PlayerHistoryMeaning(p, team.players.Get(role), role);
    WriteHistoryFrame(m1, c, role, PlayerHistory(p, team.players.Get(role), role).value, Stats, k);
  }

  lemma {:induction false} RolesFeaturesFrame(p: LolPredictor, m: map<string, real>, c: Color, team: TeamInfo, roles: seq<Role>, k: string)
    requires p.history.rows != [] && RolesFeatures(p, m, c, team, roles).Success?
    requires k !in RolesKeys(c, roles)
    ensures Lookup(RolesFeatures(p, m, c, team, roles).value, k) == Lookup(m, k)
    decreases |roles|
  {
    if roles != [] {
      RoleFeaturesFrame(p, m, c, team, roles[0], k);
      RolesFeaturesFrame(p, RoleFeatures(p, m, c, team, roles[0]).value, c, team, roles[1..], k);
    }
  }

  lemma SideFeaturesFrame(p: LolPredictor, m: map<string, real>, info: MatchInfo, c: Color, k: string)
    requires p.history.rows != [] && SideFeatures(p, m, info, c).Success?
    requires k !in SideKeys(c)
    ensures Lookup(SideFeatures(p, m, info, c).value, k) == Lookup(m, k)
  {
    var teamCode := Transform(p.teamEncoder, Lower(info.Team(c).teamName)).value;
    RolesFeaturesFrame(p, m[TeamKey(c) := teamCode as real], c, info.Team(c), Roles, k);
  }

  // ---------------------------------------------------------------------
  // The values written
  // ---------------------------------------------------------------------

  /**
   * The map holds the features of one role of one side: the codes of the
   * player and the champion, and per statistic the player's historical
   * average for their code.
   */
  ghost predicate HoldsRole(p: LolPredictor, m: map<string, real>, c: Color, team: TeamInfo, role: Role) {
    var player := Transform(p.playerEncoders.Get(role), Lower(team.players.Get(role)));
    var champion := Transform(p.championEncoders.Get(role), Lower(team.champions.Get(role)));
    && p.history.rows != []
    && player.Success? && champion.Success?
    && Lookup(m, PlayerKey(c, role)) == Some(player.value as real)
    && Lookup(m, ChampionKey(c, role)) == Some(champion.value as real)
    && forall s :: Lookup(m, HistoryKey(c, role, s)) == Some(StatAverage(p.history, role, player.value as real, s))
  }

  /** A role's features survive any later writes that leave its names alone. */
  lemma HoldsRoleKept(p: LolPredictor, m: map<string, real>, m': map<string, real>, c: Color, team: TeamInfo, role: Role)
    requires HoldsRole(p, m, c, team, role)
    requires forall k :: k in RoleKeys(c, role) ==> Lookup(m', k) == Lookup(m, k)
    ensures HoldsRole(p, m', c, team, role)
  {
    forall s
      ensures Lookup(m', HistoryKey(c, role, s)) == Lookup(m, HistoryKey(c, role, s))
    {
      StatListed(s);
      HistoryKeysListed(c, role, Stats, s);
    }
  }

  /** Writing a full history keeps the player and champion codes and stores each average. */
  lemma HistoryWritten(m: map<string, real>, c: Color, role: Role, hist: map<Stat, real>)
    requires forall s :: s in hist
    ensures var out := WriteHistory(m, c, role, hist, Stats);
            && Lookup(out, PlayerKey(c, role)) == Lookup(m, PlayerKey(c, role))
            && Lookup(out, ChampionKey(c, role)) == Lookup(m, ChampionKey(c, role))
            && forall s :: Lookup(out, HistoryKey(c, role, s)) == Some(hist[s])
  {
    HistoryKeysApart(c, role, Stats);
    WriteHistoryFrame(m, c, role, hist, Stats, PlayerKey(c, role));
    WriteHistoryFrame(m, c, role, hist, Stats, ChampionKey(c, role));
    forall s
      ensures Lookup(WriteHistory(m, c, role, hist, Stats), HistoryKey(c, role, s)) == Some(hist[s])
    {
      StatListed(s);
      WriteHistoryValue(m, c, role, hist, Stats, s);
    }
  }

  /** A successful role step writes both codes and then the player's full history. */
  lemma RoleFeaturesShape(p: LolPredictor, m: map<string, real>, c: Color, team: TeamInfo, role: Role)
    requires p.history.rows != [] && RoleFeatures(p, m, c, team, role).Success?
    ensures var player := Transform(p.playerEncoders.Get(role), Lower(team.players.Get(role)));
            var champion := Transform(p.championEncoders.Get(role), Lower(team.champions.Get(role)));
            && player.Success? && champion.Success? && PlayerHistory(p, team.players.Get(role), role).Success?
            && RoleFeatures(p, m, c, team, role).value ==
                 WriteHistory(m[PlayerKey(c, role) := player.value as real][ChampionKey(c, role) := champion.value as real],
                              c, role, PlayerHistory(p, team.players.Get(role), role).value, Stats)
  {
  }

  lemma RoleFeaturesValues(p: LolPredictor, m: map<string, real>, c: Color, team: TeamInfo, role: Role)
    requires p.history.rows != [] && RoleFeatures(p, m, c, team, role).Success?
    ensures HoldsRole(p, RoleFeatures(p, m, c, team, role).value, c, team, role)
  {
    RoleFeaturesShape(p, m, c, team, role);
    var playerCode := Transform(p.playerEncoders.Get(role), Lower(team.players.Get(role))).value;
    var championCode := Transform(p.championEncoders.Get(role), Lower(team.champions.Get(role))).value;
    var m1 := m[PlayerKey(c, role) := playerCode as real][ChampionKey(c, role) := championCode as real];
    PlayerHistoryMeaning(p, team.players.Get(role), role);
    var hist := PlayerHistory(p, team.players.Get(role), role).value;
    assert forall s :: s in hist by {
      forall s ensures s in hist { StatListed(s); }
    }
    RoleNamesApart(c, role, Kills);
    HistoryWritten(m1, c, role, hist);
    var out := WriteHistory(m1, c, role, hist, Stats);
    assert Lookup(out, PlayerKey(c, role)) == Some(playerCode as real);
    assert Lookup(out, ChampionKey(c, role)) == Some(championCode as real);
    forall s
      ensures Lookup(out, HistoryKey(c, role, s)) == Some(StatAverage(p.history, role, playerCode as real, s))
    {
      assert hist[s] == StatAverage(p.history, role, playerCode as real, s);
    }
  }

  lemma {:induction false} RolesFeaturesValues(p: LolPredictor, m: map<string, real>, c: Color, team: TeamInfo, roles: seq<Role>, r: Role)
    requires p.history.rows != [] && RolesFeatures(p, m, c, team, roles).Success?
    requires r in roles
    ensures HoldsRole(p, RolesFeatures(p, m, c, team, roles).value, c, team, r)
    decreases |roles|
  {
    var m' := RoleFeatures(p, m, c, team, roles[0]).value;
    if r in roles[1..] {
      RolesFeaturesValues(p, m', c, team, roles[1..], r);
    } else {
      RoleFeaturesValues(p, m, c, team, r);
      forall k | k in RoleKeys(c, r)
        ensures Lookup(RolesFeatures(p, m', c, team, roles[1..]).value, k) == Lookup(m', k)
      {
        RoleKeyNotInRoles(k, c, r, c, roles[1..]);
        RolesFeaturesFrame(p, m', c, team, roles[1..], k);
      }
      HoldsRoleKept(p, m', RolesFeatures(p, m', c, team, roles[1..]).value, c, team, r);
    }
  }

  /** The map holds one side's team code and the features of each of its roles. */
  ghost predicate HoldsSide(p: LolPredictor, m: map<string, real>, info: MatchInfo, c: Color) {
    var team := Transform(p.teamEncoder, Lower(info.Team(c).teamName));
    && team.Success? && Lookup(m, TeamKey(c)) == Some(team.value as real)
    && forall r :: HoldsRole(p, m, c, info.Team(c), r)
  }

  lemma HoldsSideKept(p: LolPredictor, m: map<string, real>, m': map<string, real>, info: MatchInfo, c: Color)
    requires HoldsSide(p, m, info, c)
    requires forall k :: k in SideKeys(c) ==> Lookup(m', k) == Lookup(m, k)
    ensures HoldsSide(p, m', info, c)
  {
    forall r
      ensures HoldsRole(p, m', c, info.Team(c), r)
    {
      EveryRoleListed(r);
      RoleKeysListed(c, r, Roles);
      HoldsRoleKept(p, m, m', c, info.Team(c), r);
    }
  }

  lemma SideFeaturesValues(p: LolPredictor, m: map<string, real>, info: MatchInfo, c: Color)
    requires p.history.rows != [] && SideFeatures(p, m, info, c).Success?
    ensures HoldsSide(p, SideFeatures(p, m, info, c).value, info, c)
  {
    var teamCode := Transform(p.teamEncoder, Lower(info.Team(c).teamName)).value;
    var m1 := m[TeamKey(c) := teamCode as real];
    forall r
      ensures HoldsRole(p, SideFeatures(p, m, info, c).value, c, info.Team(c), r)
    {
      EveryRoleListed(r);
      RolesFeaturesValues(p, m1, c, info.Team(c), Roles, r);
    }
    forall r | r in Roles
      ensures !StartsWith(TeamKey(c), Prefix(c, r))
    {
      SideNamesUnprefixed(c, c, r);
    }
    NotInRolesKeys(TeamKey(c), c, Roles);
    RolesFeaturesFrame(p, m1, c, info.Team(c), Roles, TeamKey(c));
  }

  lemma {:induction false} RolesKeysOwner(c: Color, roles: seq<Role>, k: string) returns (r: Role)
    requires k in RolesKeys(c, roles)
    ensures r in roles && k in RoleKeys(c, r)
    decreases |roles|
  {
    if k in RoleKeys(c, roles[0]) {
      r := roles[0];
    } else {
      r := RolesKeysOwner(c, roles[1..], k);
    }
  }

  /** The two sides write disjoint sets of features. */
  lemma SideKeysApart(c: Color, c': Color, k: string)
    requires c != c' && k in SideKeys(c)
    ensures k !in SideKeys(c')
  {
    if k == TeamKey(c) {
      SideNamesApart(c, c');
      forall r | r in Roles
        ensures !StartsWith(k, Prefix(c', r))
      {
        SideNamesUnprefixed(c, c', r);
      }
      NotInRolesKeys(k, c', Roles);
    } else {
      var r := RolesKeysOwner(c, Roles, k);
      RoleKeyNotInRoles(k, c, r, c', Roles);
      RoleKeysPrefixed(c, r, k);
      SideNamesUnprefixed(c', c, r);
    }
  }

  /** No side's step writes a rating feature. */
  lemma EloKeyNotInSide(c: Color, c': Color)
    ensures EloKey(c) !in SideKeys(c')
  {
    SideNamesApart(c', c);
    forall r | r in Roles
      ensures !StartsWith(EloKey(c), Prefix(c', r))
    {
      SideNamesUnprefixed(c, c', r);
    }
    NotInRolesKeys(EloKey(c), c', Roles);
  }

  /** The match-wide part ends with each side's rating under its own name. */
  lemma MatchContextElo(p: LolPredictor, info: MatchInfo, c: Color)
    requires OneHotValid(p.patchEncoder) && OneHotValid(p.regionEncoder)
    requires MatchContext(p, info).Success?
    ensures TeamElo(p, info.Team(c).teamName).Success?
    ensures Lookup(MatchContext(p, info).value, EloKey(c)) == Some(TeamElo(p, info.Team(c).teamName).value)
  {
    SideNamesApart(Blue, Red);
  }

  /** Both sides, Blue first, on top of the match-wide part. */
  lemma AssembledShape(p: LolPredictor, info: MatchInfo)
    requires Loaded(p) && Assembled(p, info).Success?
    ensures MatchContext(p, info).Success?
    ensures SideFeatures(p, MatchContext(p, info).value, info, Blue).Success?
    ensures var blue := SideFeatures(p, MatchContext(p, info).value, info, Blue).value;
            && SideFeatures(p, blue, info, Red).Success?
            && Assembled(p, info).value == SideFeatures(p, blue, info, Red).value
  {
    assert Colors[1..][1..] == [];
  }

  /**
   * The values of the assembled feature map: for either side, its rating
   * feature holds the team's Elo rating, its team feature the team's code;
   * for every role, the player and champion features hold their codes and
   * each historical-average feature the player's average of that statistic.
   */
  lemma AssembledValues(p: LolPredictor, info: MatchInfo, c: Color, role: Role, s: Stat)
    requires Loaded(p) && Assembled(p, info).Success?
    ensures var m := Assembled(p, info).value;
            var team := info.Team(c);
            var teamCode := Transform(p.teamEncoder, Lower(team.teamName));
            var player := Transform(p.playerEncoders.Get(role), Lower(team.players.Get(role)));
            var champion := Transform(p.championEncoders.Get(role), Lower(team.champions.Get(role)));
            && TeamElo(p, team.teamName).Success? && Lookup(m, EloKey(c)) == Some(TeamElo(p, team.teamName).value)
            && teamCode.Success? && Lookup(m, TeamKey(c)) == Some(teamCode.value as real)
            && player.Success? && Lookup(m, PlayerKey(c, role)) == Some(player.value as real)
            && champion.Success? && Lookup(m, ChampionKey(c, role)) == Some(champion.value as real)
            && Lookup(m, HistoryKey(c, role, s)) == Some(StatAverage(p.history, role, player.value as real, s))
  {
    AssembledShape(p, info);
    var m0 := MatchContext(p, info).value;
    var blue := SideFeatures(p, m0, info, Blue).value;
    var m := SideFeatures(p, blue, info, Red).value;
    SideFeaturesValues(p, m0, info, Blue);
    SideFeaturesValues(p, blue, info, Red);
    forall k | k in SideKeys(Blue)
      ensures Lookup(m, k) == Lookup(blue, k)
    {
      SideKeysApart(Blue, Red, k);
      SideFeaturesFrame(p, blue, info, Red, k);
    }
    HoldsSideKept(p, blue, m, info, Blue);
    MatchContextElo(p, info, c);
    EloKeyNotInSide(c, Blue);
    EloKeyNotInSide(c, Red);
    SideFeaturesFrame(p, m0, info, Blue, EloKey(c));
    SideFeaturesFrame(p, blue, info, Red, EloKey(c));
    assert HoldsSide(p, m, info, c);
    assert HoldsRole(p, m, c, info.Team(c), role);
  }
}
